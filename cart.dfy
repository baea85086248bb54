/** The shopping cart held by the cart context: a list of lines, each a
    product with a quantity and an optional size and colour. A line is
    identified by its product id, size and colour together. The list
    transforms behind `addItem`, `removeItem` and `updateQuantity` are pure
    functions here; the `Cart` class holds the list and applies them. */
module CartContext {
  import opened Common
  import opened Catalog

  /** One cart line; `size`/`color` absent stands for JavaScript's `undefined`. */
  datatype CartLine = CartLine(product: Product, quantity: int, size: Option<string>, color: Option<string>)

  /** The identity of a line: product id, size and colour. */
  datatype LineKey = LineKey(productId: string, size: Option<string>, color: Option<string>)

  function KeyOf(line: CartLine): LineKey {
    LineKey(line.product.id, line.size, line.color)
  }

  /** The test every cart operation applies: equal product id, size and colour. */
  predicate Matches(line: CartLine, key: LineKey) {
    line.product.id == key.productId && line.size == key.size && line.color == key.color
  }

  /** No two lines share a key. */
  predicate NoDuplicateKeys(items: seq<CartLine>) {
    forall i, j :: 0 <= i < j < |items| ==> KeyOf(items[i]) != KeyOf(items[j])
  }

  /** `items.find(...)`: the position of the first line with the key, if any. */
  function FindLine(items: seq<CartLine>, key: LineKey): (r: Option<nat>)
    ensures r.Some? ==> r.value < |items| && Matches(items[r.value], key)
    ensures r.Some? ==> forall k :: 0 <= k < r.value ==> !Matches(items[k], key)
    ensures r.None? ==> forall k :: 0 <= k < |items| ==> !Matches(items[k], key)
  {
    if items == [] then None
    else if Matches(items[0], key) then Some(0)
    else match FindLine(items[1..], key)
      case None => None
      case Some(k) => Some(k + 1)
  }

  /** The key `addItem(product, size, color)` looks for. */
  function AddKey(product: Product, size: Option<string>, color: Option<string>): LineKey {
    LineKey(product.id, size, color)
  }

  /** `addItem` refuses: a line with the key exists and its quantity has reached
      the stock of the product passed in. */
  predicate StockLimitReached(items: seq<CartLine>, product: Product, size: Option<string>, color: Option<string>) {
    var found := FindLine(items, AddKey(product, size, color));
    found.Some? && items[found.value].quantity >= product.stock
  }

  /** The list `addItem` produces. A refused add returns the list itself; a
      present key has every matching line incremented by one; an absent key
      appends a line of quantity one. */
  function AddLine(items: seq<CartLine>, product: Product, size: Option<string>, color: Option<string>): (r: seq<CartLine>)
    ensures FindLine(items, AddKey(product, size, color)).None? ==>
      r == items + [CartLine(product, 1, size, color)]
    ensures StockLimitReached(items, product, size, color) ==> r == items
    ensures FindLine(items, AddKey(product, size, color)).Some? && !StockLimitReached(items, product, size, color) ==>
      |r| == |items| &&
      forall i :: 0 <= i < |items| ==>
        r[i] == if Matches(items[i], AddKey(product, size, color))
                then items[i].(quantity := items[i].quantity + 1) else items[i]
  {
    var key := AddKey(product, size, color);
    match FindLine(items, key)
    case None => items + [CartLine(product, 1, size, color)]
    case Some(k) =>
      if items[k].quantity >= product.stock then items else IncrementMatching(items, key)
  }

  /** `items.map(item => matches ? { ...item, quantity: item.quantity + 1 } : item)`. */
  function IncrementMatching(items: seq<CartLine>, key: LineKey): seq<CartLine> {
    seq(|items|, i requires 0 <= i < |items| =>
      if Matches(items[i], key) then items[i].(quantity := items[i].quantity + 1) else items[i])
  }

  /** The list `removeItem` produces: every line with the key is dropped. */
  function RemoveLines(items: seq<CartLine>, key: LineKey): (r: seq<CartLine>)
    ensures forall i :: 0 <= i < |r| ==> !Matches(r[i], key) && r[i] in items
    ensures forall i :: 0 <= i < |items| && !Matches(items[i], key) ==> items[i] in r
  {
    FilterSeq((line: CartLine) => !Matches(line, key), items)
  }

  /** The list `updateQuantity` produces: below one nothing changes, otherwise
      every line with the key gets the quantity capped at its own product's stock. */
  function UpdateLines(items: seq<CartLine>, key: LineKey, quantity: int): (r: seq<CartLine>)
    ensures quantity < 1 ==> r == items
    ensures |r| == |items|
    ensures quantity >= 1 ==> forall i :: 0 <= i < |items| ==>
      (Matches(items[i], key) ==>
        r[i] == items[i].(quantity := if quantity <= items[i].product.stock then quantity else items[i].product.stock)) &&
      (!Matches(items[i], key) ==> r[i] == items[i])
  {
    if quantity < 1 then items else CapMatching(items, key, quantity)
  }

  /** `items.map(item => matches ? { ...item, quantity: Math.min(quantity, item.product.stock) } : item)`. */
  function CapMatching(items: seq<CartLine>, key: LineKey, quantity: int): seq<CartLine> {
    seq(|items|, i requires 0 <= i < |items| =>
      if Matches(items[i], key) then items[i].(quantity := Min(quantity, items[i].product.stock)) else items[i])
  }

  /** `items.reduce((sum, item) => sum + item.quantity, 0)`, folded from the left. */
  function SumQuantities(items: seq<CartLine>): (n: int)
    ensures items == [] ==> n == 0
  {
    if items == [] then 0 else SumQuantities(items[..|items| - 1]) + items[|items| - 1].quantity
  }

  /** `items.reduce((sum, item) => sum + item.product.price * item.quantity, 0)`. */
  function SumPrices(items: seq<CartLine>): (n: int)
    ensures items == [] ==> n == 0
  {
    if items == [] then 0
    else SumPrices(items[..|items| - 1]) + items[|items| - 1].product.price * items[|items| - 1].quantity
  }

  /** Every line holds at least one unit, so the badge count is at least the number of lines. */
  lemma {:induction false} SumQuantitiesAtLeastLines(items: seq<CartLine>)
    requires forall i :: 0 <= i < |items| ==> items[i].quantity >= 1
    ensures SumQuantities(items) >= |items|
  {
    if items != [] {
      SumQuantitiesAtLeastLines(items[..|items| - 1]);
    }
  }

  /** With no negative price or quantity the price total is never negative. */
  lemma {:induction false} SumPricesNonNegative(items: seq<CartLine>)
    requires forall i :: 0 <= i < |items| ==> items[i].product.price >= 0 && items[i].quantity >= 0
    ensures SumPrices(items) >= 0
  {
    if items != [] {
      var last := items[|items| - 1];
      SumPricesNonNegative(items[..|items| - 1]);
      assert last.product.price * last.quantity >= 0;
    }
  }

  // ----- Totals -----

  /** The item count of a concatenation is the sum of the parts' counts. */
  lemma {:induction false} SumQuantitiesAppend(a: seq<CartLine>, b: seq<CartLine>)
    ensures SumQuantities(a + b) == SumQuantities(a) + SumQuantities(b)
    decreases |b|
  {
    if b == [] {
      assert a + b == a;
    } else {
      assert (a + b)[..|a + b| - 1] == a + b[..|b| - 1];
      SumQuantitiesAppend(a, b[..|b| - 1]);
    }
  }

  /** The price total of a concatenation is the sum of the parts' totals. */
  lemma {:induction false} SumPricesAppend(a: seq<CartLine>, b: seq<CartLine>)
    ensures SumPrices(a + b) == SumPrices(a) + SumPrices(b)
    decreases |b|
  {
    if b == [] {
      assert a + b == a;
    } else {
      assert (a + b)[..|a + b| - 1] == a + b[..|b| - 1];
      SumPricesAppend(a, b[..|b| - 1]);
    }
  }

  /** Replacing line `k` by a line with one more unit of the same product adds
      one to the item count and that product's price to the price total. */
  lemma {:induction false} SumsAfterIncrementAt(items: seq<CartLine>, k: nat, r: seq<CartLine>)
    requires k < |items| == |r|
    requires forall i :: 0 <= i < |items| && i != k ==> r[i] == items[i]
    requires r[k] == items[k].(quantity := items[k].quantity + 1)
    ensures SumQuantities(r) == SumQuantities(items) + 1
    ensures SumPrices(r) == SumPrices(items) + items[k].product.price
    decreases |items|
  {
    var n := |items|;
    if k == n - 1 {
      assert r[..n - 1] == items[..n - 1];
    } else {
      SumsAfterIncrementAt(items[..n - 1], k, r[..n - 1]);
    }
  }

  /** With no duplicate keys, an accepted `addItem` adds exactly one unit: the
      price total grows by the price of the line's own product (the new
      product's price when a line is appended); a refused one changes nothing. */
  lemma AddLineTotals(items: seq<CartLine>, product: Product, size: Option<string>, color: Option<string>)
    requires NoDuplicateKeys(items)
    ensures var r := AddLine(items, product, size, color);
      if StockLimitReached(items, product, size, color) then
        SumQuantities(r) == SumQuantities(items) && SumPrices(r) == SumPrices(items)
      else
        SumQuantities(r) == SumQuantities(items) + 1 &&
        SumPrices(r) == SumPrices(items) +
          match FindLine(items, AddKey(product, size, color))
          case None => product.price
          case Some(k) => items[k].product.price
  {
    var key := AddKey(product, size, color);
    var r := AddLine(items, product, size, color);
    match FindLine(items, key)
    case None =>
      SumQuantitiesAppend(items, [CartLine(product, 1, size, color)]);
      SumPricesAppend(items, [CartLine(product, 1, size, color)]);
    case Some(k) =>
      if !StockLimitReached(items, product, size, color) {
        forall i | 0 <= i < |items| && i != k ensures r[i] == items[i] {
          assert KeyOf(items[i]) != KeyOf(items[k]);
        }
        SumsAfterIncrementAt(items, k, r);
      }
  }

  /** The example cart of two tees at 6000 and one cap at 10000 holds three items worth 22000. */
  lemma ExampleCartTotals()
    ensures var tee := Products[0];
      var cap := Products[10];
      var items := [CartLine(tee, 2, None, None), CartLine(cap, 1, None, None)];
      tee.price == 6000 && cap.price == 10000 &&
      SumQuantities(items) == 3 && SumPrices(items) == 22000
  {
    var tee, cap := Products[0], Products[10];
    var items := [CartLine(tee, 2, None, None), CartLine(cap, 1, None, None)];
    assert items[..1] == [CartLine(tee, 2, None, None)];
    assert items[..1][..0] == [];
    assert SumQuantities(items[..1]) == 2 && SumPrices(items[..1]) == 12000;
  }

  // ----- Keys stay unique -----

  /** `addItem` never creates a second line with an existing key. */
  lemma AddLinePreservesNoDuplicateKeys(items: seq<CartLine>, product: Product, size: Option<string>, color: Option<string>)
    requires NoDuplicateKeys(items)
    ensures NoDuplicateKeys(AddLine(items, product, size, color))
  {
    var key := AddKey(product, size, color);
    var r := AddLine(items, product, size, color);
    if FindLine(items, key).None? {
      forall i | 0 <= i < |items| ensures KeyOf(items[i]) != KeyOf(r[|items|]) {
        assert !Matches(items[i], key);
      }
    } else {
      assert forall i :: 0 <= i < |r| ==> KeyOf(r[i]) == KeyOf(items[i]);
    }
  }

  /** Dropping lines keeps the remaining keys distinct. */
  lemma {:induction false} FilterPreservesNoDuplicateKeys(keep: CartLine -> bool, items: seq<CartLine>)
    requires NoDuplicateKeys(items)
    ensures NoDuplicateKeys(FilterSeq(keep, items))
  {
    if items != [] {
      FilterPreservesNoDuplicateKeys(keep, items[1..]);
      var rest := FilterSeq(keep, items[1..]);
      if keep(items[0]) {
        var r := [items[0]] + rest;
        forall j | 0 < j < |r| ensures KeyOf(r[0]) != KeyOf(r[j]) {
          assert r[j] == rest[j - 1];
          var m :| 0 <= m < |items[1..]| && items[1..][m] == rest[j - 1];
          assert items[m + 1] == r[j];
        }
        forall i, j | 0 < i < j < |r| ensures KeyOf(r[i]) != KeyOf(r[j]) {
          assert r[i] == rest[i - 1] && r[j] == rest[j - 1];
        }
      }
    }
  }

  /** `removeItem` keeps the remaining keys distinct. */
  lemma RemoveLinesPreservesNoDuplicateKeys(items: seq<CartLine>, key: LineKey)
    requires NoDuplicateKeys(items)
    ensures NoDuplicateKeys(RemoveLines(items, key))
  {
    FilterPreservesNoDuplicateKeys((line: CartLine) => !Matches(line, key), items);
  }

  /** `updateQuantity` never changes a key, so keys stay distinct. */
  lemma UpdateLinesPreservesNoDuplicateKeys(items: seq<CartLine>, key: LineKey, quantity: int)
    requires NoDuplicateKeys(items)
    ensures NoDuplicateKeys(UpdateLines(items, key, quantity))
  {
    var r := UpdateLines(items, key, quantity);
    assert forall i :: 0 <= i < |r| ==> KeyOf(r[i]) == KeyOf(items[i]);
  }

  // ----- removeItem -----

  /** The lines `removeItem` keeps stay in their original order. */
  lemma RemoveLinesKeepsOrder(items: seq<CartLine>, key: LineKey)
    ensures IsSubsequence(RemoveLines(items, key), items)
  {
    FilterIsSubsequence((line: CartLine) => !Matches(line, key), items);
  }

  /** Removing a key that no line carries leaves the cart as it was. */
  lemma RemoveLinesAbsentKey(items: seq<CartLine>, key: LineKey)
    requires FindLine(items, key).None?
    ensures RemoveLines(items, key) == items
  {
    FilterAll((line: CartLine) => !Matches(line, key), items);
  }

  /** `removeItem` keeps every copy of a line without the key, repeated lines
      included, and no copy of a line with it. */
  lemma RemoveLinesCount(items: seq<CartLine>, key: LineKey, line: CartLine)
    ensures multiset(RemoveLines(items, key))[line] == if Matches(line, key) then 0 else multiset(items)[line]
  {
    FilterCount((l: CartLine) => !Matches(l, key), items, line);
  }

  /** Removing the same key twice is removing it once. */
  lemma RemoveLinesIdempotent(items: seq<CartLine>, key: LineKey)
    ensures RemoveLines(RemoveLines(items, key), key) == RemoveLines(items, key)
  {
    FilterIdempotent((line: CartLine) => !Matches(line, key), items);
  }

  // ----- updateQuantity -----

  /** After an accepted `updateQuantity`, every line with the key is within its
      product's stock, and at least one whenever that stock is. */
  lemma UpdateLinesWithinStock(items: seq<CartLine>, key: LineKey, quantity: int)
    requires quantity >= 1
    ensures var r := UpdateLines(items, key, quantity);
      forall i :: 0 <= i < |r| && Matches(r[i], key) ==>
        r[i].quantity <= r[i].product.stock &&
        (r[i].product.stock >= 1 ==> r[i].quantity >= 1)
  {
  }

  /** Setting the same quantity twice is setting it once. */
  lemma UpdateLinesIdempotent(items: seq<CartLine>, key: LineKey, quantity: int)
    ensures UpdateLines(UpdateLines(items, key, quantity), key, quantity) == UpdateLines(items, key, quantity)
  {
  }

  // ----- Quantity of one key -----

  /** The quantity of the first line with the key, as `find` sees it. */
  function QuantityOf(items: seq<CartLine>, key: LineKey): Option<int> {
    match FindLine(items, key)
    case None => None
    case Some(k) => Some(items[k].quantity)
  }

  /** What one `addItem` does to the quantity `find` sees for its key: an absent
      line starts at one, a line below the passed stock gains one, a line at or
      above it keeps its quantity. */
  lemma AddLineQuantity(items: seq<CartLine>, product: Product, size: Option<string>, color: Option<string>)
    ensures var key := AddKey(product, size, color);
      QuantityOf(AddLine(items, product, size, color), key) ==
        match QuantityOf(items, key)
        case None => Some(1)
        case Some(q) => Some(if q >= product.stock then q else q + 1)
  {
    var key := AddKey(product, size, color);
    var r := AddLine(items, product, size, color);
    match FindLine(items, key)
    case None =>
      assert forall k :: 0 <= k < |items| ==> r[k] == items[k];
      FindLineAt(r, key, |items|);
    case Some(k) =>
      if items[k].quantity < product.stock {
        assert forall i :: 0 <= i < |items| ==> KeyOf(r[i]) == KeyOf(items[i]);
        FindLineAt(r, key, k);
      }
  }

  /** A line with the key that no earlier line shares is the one `find` returns. */
  lemma {:induction false} FindLineAt(items: seq<CartLine>, key: LineKey, k: nat)
    requires k < |items| && Matches(items[k], key)
    requires forall i :: 0 <= i < k ==> !Matches(items[i], key)
    ensures FindLine(items, key) == Some(k)
  {
    if k > 0 {
      FindLineAt(items[1..], key, k - 1);
    }
  }

  // ----- Loading rows from the remote cart table -----

  /** A stored cart row; `size`/`color` absent stands for SQL `null`. */
  datatype CartRow = CartRow(productId: string, quantity: int, size: Option<string>, color: Option<string>)

  /** `value || undefined`: both null and the empty string become absent. */
  function OrUndefined(v: Option<string>): (r: Option<string>)
    ensures r.Some? <==> v.Some? && v.value != ""
    ensures r.Some? ==> r == v
  {
    if v.Some? && v.value != "" then v else None
  }

  /** The line built from a row whose product was found in the catalog. */
  function RowToLine(row: CartRow, product: Product): CartLine {
    CartLine(product, row.quantity, OrUndefined(row.size), OrUndefined(row.color))
  }

  /** Rows whose product id the catalog knows. */
  function KeepRow(catalog: seq<Product>): CartRow -> bool {
    (row: CartRow) => FindById(catalog, row.productId).Some?
  }

  /** The lines the load builds: rows taken in order, those with an unknown
      product dropped. */
  function LinesFromRows(rows: seq<CartRow>, catalog: seq<Product>): (lines: seq<CartLine>)
    ensures |lines| <= |rows|
    ensures forall i :: 0 <= i < |lines| ==> lines[i].product in catalog
  {
    if rows == [] then []
    else
      var last := rows[|rows| - 1];
      var prev := LinesFromRows(rows[..|rows| - 1], catalog);
      match FindById(catalog, last.productId)
      case None => prev
      case Some(p) => prev + [RowToLine(last, p)]
  }

  /** Each line is its row resolved against the catalog, position by position. */
  predicate LinesResolve(kept: seq<CartRow>, lines: seq<CartLine>, catalog: seq<Product>) {
    |lines| == |kept| &&
    forall i :: 0 <= i < |kept| ==>
      FindById(catalog, kept[i].productId).Some? &&
      lines[i] == RowToLine(kept[i], FindById(catalog, kept[i].productId).value)
  }

  /** Resolving one more known row extends the lines by its line. */
  lemma LinesResolveAppend(kept: seq<CartRow>, lines: seq<CartLine>, catalog: seq<Product>, last: CartRow, p: Product)
    requires LinesResolve(kept, lines, catalog)
    requires FindById(catalog, last.productId) == Some(p)
    ensures LinesResolve(kept + [last], lines + [RowToLine(last, p)], catalog)
  {
    var k, l := kept + [last], lines + [RowToLine(last, p)];
    forall i | 0 <= i < |k|
      ensures FindById(catalog, k[i].productId).Some? &&
        l[i] == RowToLine(k[i], FindById(catalog, k[i].productId).value)
    {
      if i < |kept| {
        assert k[i] == kept[i] && l[i] == lines[i];
      }
    }
  }

  /** The load is "filter by catalog membership, then map each row to a line". */
  lemma {:induction false} LinesFromRowsFilterThenMap(rows: seq<CartRow>, catalog: seq<Product>)
    ensures LinesResolve(FilterSeq(KeepRow(catalog), rows), LinesFromRows(rows, catalog), catalog)
    decreases |rows|
  {
    if rows != [] {
      var keep := KeepRow(catalog);
      var init, last := rows[..|rows| - 1], rows[|rows| - 1];
      LinesFromRowsFilterThenMap(init, catalog);
      assert rows == init + [last];
      FilterAppend(keep, init, [last]);
      assert [last][1..] == [];
      var keptInit := FilterSeq(keep, init);
      var linesInit := LinesFromRows(init, catalog);
      match FindById(catalog, last.productId)
      case None =>
        assert FilterSeq(keep, rows) == keptInit;
      case Some(p) =>
        assert FilterSeq(keep, rows) == keptInit + [last];
        LinesResolveAppend(keptInit, linesInit, catalog, last, p);
    }
  }

  /** `data.forEach(dbItem => { ... cartItems.push(...) })`: the loop that builds the loaded cart. */
  method BuildCartItems(rows: seq<CartRow>, catalog: seq<Product>) returns (cartItems: seq<CartLine>)
    ensures cartItems == LinesFromRows(rows, catalog)
  {
    cartItems := [];
    var i := 0;
    while i < |rows|
      invariant 0 <= i <= |rows|
      invariant cartItems == LinesFromRows(rows[..i], catalog)
    {
      var product := FindById(catalog, rows[i].productId);
      if product.Some? {
        cartItems := cartItems + [RowToLine(rows[i], product.value)];
      }
      assert rows[..i + 1][..i] == rows[..i];
      i := i + 1;
    }
    assert rows[..i] == rows;
  }

  // ----- The cart state -----

  /** The cart context's `items` state and the operations that replace it. */
  class Cart {
    var items: seq<CartLine>

    /** A fresh provider starts with an empty list. */
    constructor ()
      ensures items == []
    {
      items := [];
    }

    /** `totalItems`: the number of units in the cart. */
    function TotalItems(): (n: int)
      reads this
      ensures items == [] ==> n == 0
    {
      SumQuantities(items)
    }

    /** `totalPrice`: the price of every unit in the cart, in naira. */
    function TotalPrice(): (n: int)
      reads this
      ensures items == [] ==> n == 0
    {
      SumPrices(items)
    }

    /** `addItem(product, size?, color?)`; `limitReached` is the "Stock limit reached" notice. */
    method AddItem(product: Product, size: Option<string>, color: Option<string>) returns (limitReached: bool)
      modifies this
      ensures limitReached == StockLimitReached(old(items), product, size, color)
      ensures items == AddLine(old(items), product, size, color)
      ensures NoDuplicateKeys(old(items)) ==> NoDuplicateKeys(items)
      ensures NoDuplicateKeys(old(items)) && !limitReached ==> TotalItems() == old(TotalItems()) + 1
      ensures limitReached ==> items == old(items)
    {
      limitReached := StockLimitReached(items, product, size, color);
      if NoDuplicateKeys(items) {
        AddLinePreservesNoDuplicateKeys(items, product, size, color);
        AddLineTotals(items, product, size, color);
      }
      items := AddLine(items, product, size, color);
    }

    /** `removeItem(productId, size?, color?)`. */
    method RemoveItem(productId: string, size: Option<string>, color: Option<string>)
      modifies this
      ensures items == RemoveLines(old(items), LineKey(productId, size, color))
      ensures NoDuplicateKeys(old(items)) ==> NoDuplicateKeys(items)
    {
      if NoDuplicateKeys(items) {
        RemoveLinesPreservesNoDuplicateKeys(items, LineKey(productId, size, color));
      }
      items := RemoveLines(items, LineKey(productId, size, color));
    }

    /** `updateQuantity(productId, quantity, size?, color?)`. */
    method UpdateQuantity(productId: string, quantity: int, size: Option<string>, color: Option<string>)
      modifies this
      ensures items == UpdateLines(old(items), LineKey(productId, size, color), quantity)
      ensures quantity < 1 ==> items == old(items)
      ensures NoDuplicateKeys(old(items)) ==> NoDuplicateKeys(items)
    {
      if quantity < 1 {
        return;
      }
      if NoDuplicateKeys(items) {
        UpdateLinesPreservesNoDuplicateKeys(items, LineKey(productId, size, color), quantity);
      }
      items := UpdateLines(items, LineKey(productId, size, color), quantity);
    }

    /** `clearCart()`. */
    method ClearCart()
      modifies this
      ensures items == []
      ensures TotalItems() == 0 && TotalPrice() == 0
    {
      items := [];
    }

    /** The state update of `loadCartFromDatabase`: the rows the backend returned,
        resolved against the built-in catalog. */
    method LoadFromRows(rows: seq<CartRow>)
      modifies this
      ensures items == LinesFromRows(rows, Products)
    {
      items := BuildCartItems(rows, Products);
    }
  }
}
