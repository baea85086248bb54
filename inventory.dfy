/** The admin inventory tab: summary counts over the stored products, the
    total inventory value, the out/low/ok stock classification with its
    progress bar, and the one-row-at-a-time stock editor. */
module Inventory {
  import opened Common

  /** The fields of a stored product the tab reads. */
  datatype ProductRow = ProductRow(id: string, name: string, price: int, stock: int)

  /** `stock > 0 && stock <= 10`, the low-stock card's test. */
  predicate IsLowStock(p: ProductRow) {
    p.stock > 0 && p.stock <= 10
  }

  /** `stock === 0`, the out-of-stock card's test. */
  predicate IsOutOfStock(p: ProductRow) {
    p.stock == 0
  }

  /** `lowStockCount`. */
  function LowStockCount(products: seq<ProductRow>): (n: nat)
    ensures n <= |products|
    ensures n == 0 <==> forall i :: 0 <= i < |products| ==> !IsLowStock(products[i])
  {
    var low := FilterSeq(IsLowStock, products);
    if low == [] then 0
    else
      assert IsLowStock(low[0]) && low[0] in products;
      |low|
  }

  /** `outOfStockCount`. */
  function OutOfStockCount(products: seq<ProductRow>): (n: nat)
    ensures n <= |products|
    ensures n == 0 <==> forall i :: 0 <= i < |products| ==> !IsOutOfStock(products[i])
  {
    var out := FilterSeq(IsOutOfStock, products);
    if out == [] then 0
    else
      assert IsOutOfStock(out[0]) && out[0] in products;
      |out|
  }

  /** `reduce((sum, p) => sum + price * stock, 0)`: a left fold, written from the end. */
  function TotalValue(products: seq<ProductRow>): (v: int)
    ensures products == [] ==> v == 0
    ensures (forall i :: 0 <= i < |products| ==> products[i].stock == 0) ==> v == 0
  {
    if products == [] then 0
    else TotalValue(products[..|products| - 1]) + products[|products| - 1].price * products[|products| - 1].stock
  }

  /** The value of two lists side by side is the sum of their values. */
  lemma {:induction false} TotalValueAppend(xs: seq<ProductRow>, ys: seq<ProductRow>)
    ensures TotalValue(xs + ys) == TotalValue(xs) + TotalValue(ys)
    decreases |ys|
  {
    if ys == [] {
      assert xs + ys == xs;
    } else {
      var init := ys[..|ys| - 1];
      assert (xs + ys)[..|xs + ys| - 1] == xs + init;
      TotalValueAppend(xs, init);
    }
  }

  /** With no negative price or stock the value is never negative. */
  lemma {:induction false} TotalValueNonNegative(products: seq<ProductRow>)
    requires forall i :: 0 <= i < |products| ==> products[i].price >= 0 && products[i].stock >= 0
    ensures TotalValue(products) >= 0
  {
    if products != [] {
      var last := products[|products| - 1];
      TotalValueNonNegative(products[..|products| - 1]);
      assert last.price * last.stock >= 0;
    }
  }

  /** The four summary cards. */
  datatype Summary = Summary(totalProducts: nat, lowStock: nat, outOfStock: nat, totalValue: int)

  /** The cards for the fetched list, or for no list (`products?.… || 0`). */
  function Cards(products: Option<seq<ProductRow>>): (s: Summary)
    ensures products.None? ==> s == Summary(0, 0, 0, 0)
    ensures products.Some? ==>
      s.totalProducts == |products.value| &&
      s.lowStock == LowStockCount(products.value) &&
      s.outOfStock == OutOfStockCount(products.value) &&
      s.totalValue == TotalValue(products.value)
    ensures s.lowStock + s.outOfStock <= s.totalProducts
  {
    match products
    case None => Summary(0, 0, 0, 0)
    case Some(ps) =>
      LowAndOutDisjoint(ps);
      Summary(|ps|, LowStockCount(ps), OutOfStockCount(ps), TotalValue(ps))
  }

  /** No product is both low and out of stock, so the two cards together
      never count more products than there are. */
  lemma {:induction false} LowAndOutDisjoint(products: seq<ProductRow>)
    ensures |FilterSeq(IsLowStock, products)| + |FilterSeq(IsOutOfStock, products)| <= |products|
  {
    if products != [] {
      LowAndOutDisjoint(products[1..]);
    }
  }

  /** The per-row classification. */
  datatype StockStatus = Out | Low | Ok

  /** `stock === 0 ? "out" : stock <= 10 ? "low" : "ok"`. */
  function Status(stock: int): (s: StockStatus)
    ensures s == Out <==> stock == 0
    ensures s == Low <==> stock != 0 && stock <= 10
    ensures s == Ok <==> stock > 10
  {
    if stock == 0 then Out else if stock <= 10 then Low else Ok
  }

  predicate ShownLow(p: ProductRow) {
    Status(p.stock) == Low
  }

  predicate ShownOut(p: ProductRow) {
    Status(p.stock) == Out
  }

  predicate ShownOk(p: ProductRow) {
    Status(p.stock) == Ok
  }

  /** The rows badged "out" are exactly the ones the out-of-stock card counts. */
  lemma OutRowsMatchCard(products: seq<ProductRow>)
    ensures |FilterSeq(ShownOut, products)| == OutOfStockCount(products)
  {
    FilterCongruent(ShownOut, IsOutOfStock, products);
  }

  /** With no negative stock, the rows badged "low" are exactly the ones the
      low-stock card counts. */
  lemma LowRowsMatchCard(products: seq<ProductRow>)
    requires forall i :: 0 <= i < |products| ==> products[i].stock >= 0
    ensures |FilterSeq(ShownLow, products)| == LowStockCount(products)
  {
    FilterCongruent(ShownLow, IsLowStock, products);
  }

  /** A negative stock, which the editor lets through, is badged "low" yet
      counted by neither card. */
  lemma NegativeStockBadgedLowButUncounted()
    ensures var ps := [ProductRow("p", "P", 100, -1)];
      |FilterSeq(ShownLow, ps)| == 1 && LowStockCount(ps) == 0 && OutOfStockCount(ps) == 0
  {
    var ps := [ProductRow("p", "P", 100, -1)];
    assert FilterSeq(ShownLow, ps) == ps;
    assert !IsLowStock(ps[0]) && !IsOutOfStock(ps[0]);
  }

  /** Every row gets exactly one badge, so the three badge counts add up to the list length. */
  lemma {:induction false} StatusesPartition(products: seq<ProductRow>)
    ensures |FilterSeq(ShownOut, products)| + |FilterSeq(ShownLow, products)| + |FilterSeq(ShownOk, products)|
         == |products|
  {
    if products != [] {
      StatusesPartition(products[1..]);
    }
  }

  /** `Math.min((stock / 100) * 100, 100)`: the stock, capped at a full bar. */
  function StockPercentage(stock: int): (pct: int)
    ensures pct <= 100
    ensures pct == stock <==> stock <= 100
    ensures stock >= 100 ==> pct == 100
  {
    Min(stock, 100)
  }

  /** What Save sends to the product update. */
  datatype StockUpdate = StockUpdate(id: string, stock: real)

  /** The stock editor: which row is being edited, and the typed value
      (`Number(e.target.value)`, so a fraction such as 2.5 is kept as typed). */
  class StockEditor {
    var editingId: Option<string>
    var newStock: real

    constructor ()
      ensures editingId == None && newStock == 0.0
    {
      editingId := None;
      newStock := 0.0;
    }

    /** A row shows the input and the Cancel/Save buttons exactly while it is being edited. */
    function IsEditing(id: string): (b: bool)
      reads this
      ensures b <==> editingId == Some(id)
    {
      editingId == Some(id)
    }

    /** "Update Stock": edit this row, starting from its current stock. */
    method StartEdit(p: ProductRow)
      modifies this
      ensures editingId == Some(p.id) && newStock == p.stock as real
    {
      editingId := Some(p.id);
      newStock := p.stock as real;
    }

    /** Typing into the input. */
    method SetNewStock(value: real)
      modifies this
      ensures newStock == value && editingId == old(editingId)
    {
      newStock := value;
    }

    /** "Cancel": leave editing without sending anything. */
    method Cancel()
      modifies this
      ensures editingId == None && newStock == old(newStock)
    {
      editingId := None;
    }

    /** "Save": the update sent carries the typed value as it is, with no
        check of its sign; `succeeded` is the update's outcome, and only a
        successful one ends the edit. */
    method Save(id: string, succeeded: bool) returns (sent: StockUpdate)
      requires editingId == Some(id)
      modifies this
      ensures sent == StockUpdate(id, old(newStock))
      ensures newStock == old(newStock)
      ensures editingId == if succeeded then None else old(editingId)
    {
      sent := StockUpdate(id, newStock);
      if succeeded {
        editingId := None;
      }
    }
  }

  /** Editing a row, typing a value and saving sends exactly that value,
      negative, fractional or whole, and closes the editor once the update succeeds. */
  method EditAndSave(editor: StockEditor, p: ProductRow, typed: real, succeeded: bool) returns (sent: StockUpdate)
    modifies editor
    ensures sent == StockUpdate(p.id, typed)
    ensures succeeded ==> editor.editingId == None
    ensures !succeeded ==> editor.IsEditing(p.id)
  {
    editor.StartEdit(p);
    editor.SetNewStock(typed);
    sent := editor.Save(p.id, succeeded);
  }
}
