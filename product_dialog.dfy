/** The admin product dialog: the form's field constraints, the values it is
    reset to, and the submission that creates a product or updates the one
    being edited, sending empty optional texts as absent. */
module ProductDialog {
  import opened Common

  /** The form's values after number coercion; an optional text may be absent. */
  datatype FormData = FormData(
    name: string,
    description: Option<string>,
    price: real,
    image: Option<string>,
    stock: real,
    category: Option<string>)

  /** One violated constraint, named after its field. */
  datatype Issue =
    | NameTooShort
    | NameTooLong
    | DescriptionTooLong
    | PriceNegative
    | ImageNotUrl
    | StockNotInteger
    | StockNegative
    | CategoryTooLong

  /** Absent, or a text of at most `max` characters. */
  predicate OptionalAtMost(t: Option<string>, max: nat) {
    t.None? || |t.value| <= max
  }

  /** The image is absent, the empty string, or a URL; `imageIsUrl` is the
      URL parser's verdict on the present text. */
  predicate ImageAccepted(image: Option<string>, imageIsUrl: bool) {
    image.None? || image.value == "" || imageIsUrl
  }

  predicate IsInteger(x: real) {
    x.Floor as real == x
  }

  /** Every field constraint of the product schema. */
  predicate Accepted(data: FormData, imageIsUrl: bool) {
    1 <= |data.name| <= 100 &&
    OptionalAtMost(data.description, 1000) &&
    data.price >= 0.0 &&
    ImageAccepted(data.image, imageIsUrl) &&
    IsInteger(data.stock) && data.stock >= 0.0 &&
    OptionalAtMost(data.category, 50)
  }

  /** Whether the schema's check behind `issue` fails. */
  predicate Fails(issue: Issue, data: FormData, imageIsUrl: bool) {
    match issue
    case NameTooShort => |data.name| < 1
    case NameTooLong => |data.name| > 100
    case DescriptionTooLong => !OptionalAtMost(data.description, 1000)
    case PriceNegative => data.price < 0.0
    case ImageNotUrl => !ImageAccepted(data.image, imageIsUrl)
    case StockNotInteger => !IsInteger(data.stock)
    case StockNegative => data.stock < 0.0
    case CategoryTooLong => !OptionalAtMost(data.category, 50)
  }

  /** Every check of the schema, in field order name, description, price,
      image, stock, category. */
  const AllChecks: seq<Issue> := [
    NameTooShort, NameTooLong, DescriptionTooLong, PriceNegative,
    ImageNotUrl, StockNotInteger, StockNegative, CategoryTooLong]

  lemma EveryIssueChecked(issue: Issue)
    ensures issue in AllChecks
  {
    match issue
    case NameTooShort => assert AllChecks[0] == issue;
    case NameTooLong => assert AllChecks[1] == issue;
    case DescriptionTooLong => assert AllChecks[2] == issue;
    case PriceNegative => assert AllChecks[3] == issue;
    case ImageNotUrl => assert AllChecks[4] == issue;
    case StockNotInteger => assert AllChecks[5] == issue;
    case StockNegative => assert AllChecks[6] == issue;
    case CategoryTooLong => assert AllChecks[7] == issue;
  }

  function FailsFor(data: FormData, imageIsUrl: bool): Issue -> bool {
    (issue: Issue) => Fails(issue, data, imageIsUrl)
  }

  /** The issues the schema reports: the failing checks, in field order (a
      stock may fail both of its checks). */
  function Issues(data: FormData, imageIsUrl: bool): (r: seq<Issue>)
    ensures forall issue :: issue in r <==> Fails(issue, data, imageIsUrl)
    ensures IsSubsequence(r, AllChecks)
  {
    var r := FilterSeq(FailsFor(data, imageIsUrl), AllChecks);
    FilterIsSubsequence(FailsFor(data, imageIsUrl), AllChecks);
    assert forall issue :: issue in r <==> Fails(issue, data, imageIsUrl) by {
      forall issue
        ensures issue in r <==> Fails(issue, data, imageIsUrl)
      {
        EveryIssueChecked(issue);
      }
    }
    r
  }

  /** The form is rejected, with at least one issue, exactly when it breaks a constraint. */
  lemma AcceptedIffNoIssues(data: FormData, imageIsUrl: bool)
    ensures Issues(data, imageIsUrl) == [] <==> Accepted(data, imageIsUrl)
  {
    var r := Issues(data, imageIsUrl);
    if r != [] {
      FailingCheckRejects(r[0], data, imageIsUrl);
    }
    if !Accepted(data, imageIsUrl) {
      var issue := RejectionCause(data, imageIsUrl);
      assert issue in r;
    }
  }

  /** A failing check breaks a constraint. */
  lemma FailingCheckRejects(issue: Issue, data: FormData, imageIsUrl: bool)
    requires Fails(issue, data, imageIsUrl)
    ensures !Accepted(data, imageIsUrl)
  {
  }

  /** A broken constraint has a failing check. */
  lemma RejectionCause(data: FormData, imageIsUrl: bool) returns (issue: Issue)
    requires !Accepted(data, imageIsUrl)
    ensures Fails(issue, data, imageIsUrl)
  {
    if |data.name| < 1 { issue := NameTooShort; }
    else if |data.name| > 100 { issue := NameTooLong; }
    else if !OptionalAtMost(data.description, 1000) { issue := DescriptionTooLong; }
    else if data.price < 0.0 { issue := PriceNegative; }
    else if !ImageAccepted(data.image, imageIsUrl) { issue := ImageNotUrl; }
    else if !IsInteger(data.stock) { issue := StockNotInteger; }
    else if data.stock < 0.0 { issue := StockNegative; }
    else { issue := CategoryTooLong; }
  }

  /** The values of a new product's form. */
  const Blank: FormData := FormData("", Some(""), 0.0, Some(""), 0.0, Some(""))

  /** The blank form is rejected for its empty name and nothing else; with a
      name filled in it is accepted, whatever the URL verdict. */
  lemma BlankNeedsOnlyName(imageIsUrl: bool)
    ensures forall issue :: issue in Issues(Blank, imageIsUrl) <==> issue == NameTooShort
    ensures Issues(Blank.(name := "Tee"), imageIsUrl) == []
  {
    assert Blank.stock.Floor == 0;
    assert (Blank.(name := "Tee")).stock.Floor == 0;
    AcceptedIffNoIssues(Blank.(name := "Tee"), imageIsUrl);
  }

  /** A stored product as the dialog loads it. */
  datatype StoredProduct = StoredProduct(
    id: string,
    name: string,
    description: Option<string>,
    price: real,
    image: Option<string>,
    stock: int,
    category: Option<string>)

  /** An absent optional text shows as the empty string (`value || ""`). */
  function ShowText(t: Option<string>): (r: Option<string>)
    ensures r.Some?
    ensures t.Some? ==> r == t
    ensures t.None? ==> r == Some("")
  {
    Some(t.GetOr(""))
  }

  /** The form for editing a stored product. */
  function FormOf(p: StoredProduct): (f: FormData)
    ensures f.name == p.name && f.price == p.price && f.stock == p.stock as real
    ensures f.description.Some? && f.image.Some? && f.category.Some?
  {
    FormData(p.name, ShowText(p.description), p.price, ShowText(p.image), p.stock as real, ShowText(p.category))
  }

  /** An empty optional text is sent as absent (`value || undefined`). */
  function SendText(t: Option<string>): (r: Option<string>)
    ensures r.None? <==> t.None? || t.value == ""
    ensures r.Some? ==> r == t
  {
    if t.Some? && t.value != "" then t else None
  }

  /** The product fields a submission sends. */
  datatype ProductInput = ProductInput(
    name: string,
    price: real,
    stock: int,
    image: Option<string>,
    description: Option<string>,
    category: Option<string>)

  /** The fields sent for accepted form values. */
  function InputOf(data: FormData): (input: ProductInput)
    requires IsInteger(data.stock)
    ensures input.name == data.name && input.price == data.price && input.stock as real == data.stock
    ensures input.image == SendText(data.image)
    ensures input.description == SendText(data.description)
    ensures input.category == SendText(data.category)
  {
    ProductInput(data.name, data.price, data.stock.Floor,
      SendText(data.image), SendText(data.description), SendText(data.category))
  }

  /** Loading a stored product into the form and sending it unchanged sends
      back its own fields, except that an empty optional text becomes absent. */
  lemma {:induction false} EditRoundTrip(p: StoredProduct)
    ensures InputOf(FormOf(p)) ==
      ProductInput(p.name, p.price, p.stock, SendText(p.image), SendText(p.description), SendText(p.category))
  {
    assert (p.stock as real).Floor == p.stock;
  }

  /** A loaded product with non-negative integer stock, a non-negative price
      and texts within their limits passes the schema unchanged when its
      image is absent or accepted. */
  lemma LoadedProductAccepted(p: StoredProduct, imageIsUrl: bool)
    requires 1 <= |p.name| <= 100 && p.price >= 0.0 && p.stock >= 0
    requires OptionalAtMost(p.description, 1000) && OptionalAtMost(p.category, 50)
    requires ImageAccepted(p.image, imageIsUrl)
    ensures Accepted(FormOf(p), imageIsUrl)
    ensures Issues(FormOf(p), imageIsUrl) == []
  {
    var f := FormOf(p);
    assert IsInteger(f.stock) by {
      assert (p.stock as real).Floor == p.stock;
    }
    assert f.description == ShowText(p.description) && f.category == ShowText(p.category);
    assert OptionalAtMost(f.description, 1000) && OptionalAtMost(f.category, 50);
    assert ImageAccepted(f.image, imageIsUrl);
    assert Accepted(f, imageIsUrl);
    AcceptedIffNoIssues(f, imageIsUrl);
  }

  /** What a submission asks the backend to do. */
  datatype Mutation =
    | Create(input: ProductInput)
    | Update(id: string, input: ProductInput)

  /** The dialog: whether it is open, the product being edited (none for a
      new product), and the form's current values. */
  class Dialog {
    var open: bool
    var productId: Option<string>
    var form: FormData

    constructor (productId: Option<string>)
      ensures open && this.productId == productId && form == Blank
    {
      open := true;
      this.productId := productId;
      form := Blank;
    }

    /** The dialog edits exactly when its product id is a non-empty string. */
    function Editing(): (b: bool)
      reads this
      ensures b <==> productId.Some? && productId.value != ""
    {
      productId.Some? && productId.value != ""
    }

    /** The reset effect: the loaded product's values when editing one, the
        blank form when there is no product id, and no change while the
        edited product is still loading. */
    method Reset(loaded: Option<StoredProduct>)
      modifies this
      ensures open == old(open) && productId == old(productId)
      ensures loaded.Some? && Editing() ==> form == FormOf(loaded.value)
      ensures !Editing() ==> form == Blank
      ensures loaded.None? && Editing() ==> form == old(form)
    {
      if loaded.Some? && Editing() {
        form := FormOf(loaded.value);
      } else if !Editing() {
        form := Blank;
      }
    }

    /** Typing into the fields. */
    method Edit(data: FormData)
      modifies this
      ensures form == data && open == old(open) && productId == old(productId)
    {
      form := data;
    }

    /** Submitting: rejected values send nothing; accepted ones update the
        edited product or create a new one, and the dialog closes once the
        request (`succeeded`) went through. */
    method Submit(imageIsUrl: bool, succeeded: bool) returns (sent: Option<Mutation>)
      modifies this
      ensures form == old(form) && productId == old(productId)
      ensures sent.None? <==> !Accepted(form, imageIsUrl)
      ensures sent.Some? && Editing() ==> sent.value == Update(productId.value, InputOf(form))
      ensures sent.Some? && !Editing() ==> sent.value == Create(InputOf(form))
      ensures open == if sent.Some? && succeeded then false else old(open)
    {
      AcceptedIffNoIssues(form, imageIsUrl);
      if Issues(form, imageIsUrl) != [] {
        return None;
      }
      var input := InputOf(form);
      if Editing() {
        sent := Some(Update(productId.value, input));
      } else {
        sent := Some(Create(input));
      }
      if succeeded {
        open := false;
      }
    }

    /** The Cancel button closes the dialog without sending anything. */
    method Cancel()
      modifies this
      ensures !open && form == old(form) && productId == old(productId)
    {
      open := false;
    }
  }

  /** Opening the dialog for a stored product and saving it untouched updates
      that product with its own fields. */
  method SaveUntouched(p: StoredProduct, imageIsUrl: bool, succeeded: bool) returns (sent: Option<Mutation>)
    requires p.id != ""
    requires 1 <= |p.name| <= 100 && p.price >= 0.0 && p.stock >= 0
    requires OptionalAtMost(p.description, 1000) && OptionalAtMost(p.category, 50)
    requires ImageAccepted(p.image, imageIsUrl)
    ensures sent == Some(Update(p.id,
      ProductInput(p.name, p.price, p.stock, SendText(p.image), SendText(p.description), SendText(p.category))))
  {
    var dialog := new Dialog(Some(p.id));
    dialog.Reset(Some(p));
    LoadedProductAccepted(p, imageIsUrl);
    EditRoundTrip(p);
    sent := dialog.Submit(imageIsUrl, succeeded);
  }
}
