/**
 * Cart data validation and arithmetic: checks one line item and a whole
 * cart, drops invalid items, computes subtotal, tax, shipping and total
 * rounded to cents, compares two sets of totals within one cent, and
 * builds the cart health report.
 */
module CartValidation {
  import opened JsValues

  /** Tax rate applied to the subtotal (10%). */
  const TAX_RATE: real := 0.10

  /** Shipping cost (free). */
  const SHIPPING_COST: real := 0.0

  /** Largest number of line items a cart may hold before it draws a warning. */
  const MAX_ITEMS: nat := 100

  /** A product id: a number, a string (a UUID), or anything else
      (missing, null, a value of another type). */
  datatype ProductId = NumberId(n: int) | StringId(s: string) | NoId

  /** A price as stored on an item: a number, or a value of another type
      (usually a string) represented by what `parseFloat` reads from it. */
  datatype Price = Number(n: JsNumber) | NonNumber(parsed: JsNumber)

  /** A cart line item. `name` is None when it is missing or not a string;
      `stock` is None when it is undefined. */
  datatype LineItem = LineItem(
    id: ProductId,
    name: Option<string>,
    price: Price,
    quantity: JsNumber,
    stock: Option<JsNumber>)

  /** A product as a caller or the backend hands it over. */
  datatype Product = Product(id: ProductId, name: Option<string>, price: Price, stock: Option<JsNumber>)

  /** `{ ...product, price: <price as a number>, quantity }`: the new cart entry
      for a product, as `addItem` and the backend merge build it. */
  function NewLineItem(product: Product, quantity: JsNumber): (item: LineItem)
    ensures item.id == product.id && item.name == product.name && item.stock == product.stock
    ensures item.quantity == quantity
    ensures item.price.Number? && PriceNumber(item.price) == PriceNumber(product.price)
  {
    LineItem(product.id, product.name, NormalizePrice(product.price), quantity, product.stock)
  }

  datatype ItemError =
    | InvalidId(id: ProductId)
    | NameRequired
    | InvalidPrice(price: Price)
    | InvalidQuantity(quantity: JsNumber)
    | InvalidStock(stock: JsNumber)
    | ExceedsStock(quantity: JsNumber, stock: JsNumber)

  datatype ItemValidation = ItemValidation(isValid: bool, errors: seq<ItemError>)

  /** The value a price stands for: the number itself, or what `parseFloat` read. */
  function PriceNumber(p: Price): JsNumber {
    if p.Number? then p.n else p.parsed
  }

  /** `price` normalised to a number, as `addItem` and the backend merge store it. */
  function NormalizePrice(p: Price): (r: Price)
    ensures r.Number? && PriceNumber(r) == PriceNumber(p)
  {
    Number(PriceNumber(p))
  }

  // The six checks of a line item. Each one is a separate rule of the schema.

  /** A truthy id of type number or string. */
  predicate ValidId(id: ProductId) {
    (id.NumberId? && id.n != 0) || (id.StringId? && id.s != "")
  }

  /** A non-empty string. */
  predicate ValidName(name: Option<string>) {
    name.Some? && name.value != ""
  }

  /** A price that reads as a number and is not negative. */
  predicate ValidPrice(p: Price) {
    PriceNumber(p).Finite? && PriceNumber(p).v >= 0.0
  }

  /** A positive integer. */
  predicate ValidQuantity(q: JsNumber) {
    IsInteger(q) && q.v > 0.0
  }

  /** Undefined, or a non-negative integer. */
  predicate ValidStock(stock: Option<JsNumber>) {
    stock.None? || (IsInteger(stock.value) && stock.value.v >= 0.0)
  }

  /** The quantity does not exceed a defined stock. */
  predicate WithinStock(item: LineItem) {
    item.stock.None? || !Greater(item.quantity, item.stock.value)
  }

  /** An item that passes every check. */
  predicate IsValidItem(item: LineItem) {
    && ValidId(item.id)
    && ValidName(item.name)
    && ValidPrice(item.price)
    && ValidQuantity(item.quantity)
    && ValidStock(item.stock)
    && WithinStock(item)
  }

  /** One check's contribution to the error list. */
  function Check(ok: bool, e: ItemError): seq<ItemError> {
    if ok then [] else [e]
  }

  /** `validateCartItem`: each failing check contributes its own error, in
      the order the checks are made; the item is valid exactly when no check
      fails. */
  function ValidateCartItem(item: LineItem): (v: ItemValidation)
    ensures v.isValid <==> |v.errors| == 0
    ensures v.isValid <==> IsValidItem(item)
  {
    var stock := if item.stock.Some? then item.stock.value else NaN;
    var errors :=
      Check(ValidId(item.id), InvalidId(item.id))
      + Check(ValidName(item.name), NameRequired)
      + Check(ValidPrice(item.price), InvalidPrice(item.price))
      + Check(ValidQuantity(item.quantity), InvalidQuantity(item.quantity))
      + Check(ValidStock(item.stock), InvalidStock(stock))
      + Check(WithinStock(item), ExceedsStock(item.quantity, stock));
    ItemValidation(|errors| == 0, errors)
  }

  /** All failing checks are reported together, not only the first: each
      error is present exactly when its check fails. In particular a
      non-integer or non-positive quantity always draws InvalidQuantity, and
      a negative or unparseable price always draws InvalidPrice. */
  lemma ValidateCartItemReportsEachFailure(item: LineItem)
    ensures var errors := ValidateCartItem(item).errors;
      && (InvalidId(item.id) in errors <==> !ValidId(item.id))
      && (NameRequired in errors <==> !ValidName(item.name))
      && (InvalidPrice(item.price) in errors <==> !ValidPrice(item.price))
      && (InvalidQuantity(item.quantity) in errors <==> !ValidQuantity(item.quantity))
      && (item.stock.Some? ==>
           (InvalidStock(item.stock.value) in errors <==> !ValidStock(item.stock)))
      && (item.stock.Some? ==>
           (ExceedsStock(item.quantity, item.stock.value) in errors <==> !WithinStock(item)))
  {
    var stock := if item.stock.Some? then item.stock.value else NaN;
    var c1 := Check(ValidId(item.id), InvalidId(item.id));
    var c2 := Check(ValidName(item.name), NameRequired);
    var c3 := Check(ValidPrice(item.price), InvalidPrice(item.price));
    var c4 := Check(ValidQuantity(item.quantity), InvalidQuantity(item.quantity));
    var c5 := Check(ValidStock(item.stock), InvalidStock(stock));
    var c6 := Check(WithinStock(item), ExceedsStock(item.quantity, stock));
    var errors := ValidateCartItem(item).errors;
    assert errors == c1 + c2 + c3 + c4 + c5 + c6;
    assert forall e :: e in errors <==> e in c1 || e in c2 || e in c3 || e in c4 || e in c5 || e in c6;
  }

  /** Nothing but those six errors is ever reported, and an item without a
      stock never draws a stock error. */
  lemma ValidateCartItemReportsOnlyFailedChecks(item: LineItem)
    ensures item.stock.None? ==>
      forall e :: e in ValidateCartItem(item).errors ==> !e.InvalidStock? && !e.ExceedsStock?
    ensures forall e :: e in ValidateCartItem(item).errors ==>
      || e == InvalidId(item.id)
      || e == NameRequired
      || e == InvalidPrice(item.price)
      || e == InvalidQuantity(item.quantity)
      || (item.stock.Some? && e == InvalidStock(item.stock.value))
      || (item.stock.Some? && e == ExceedsStock(item.quantity, item.stock.value))
  {
  }

  // ---------------------------------------------------------------------
  // Whole-cart validation

  /** What `validateCart` is given: an array of items, or anything else. */
  datatype CartInput = List(items: seq<LineItem>) | NotAList

  datatype CartError =
    | NotAnArray
    | ItemFailed(position: nat, itemName: string, errors: seq<ItemError>)

  datatype Warning = DuplicateItems(ids: seq<ProductId>) | TooManyItems

  datatype CartReport = CartReport(isValid: bool, errors: seq<CartError>, warnings: seq<Warning>)

  /** `item.name || 'Unknown'` */
  function Label(item: LineItem): string {
    if ValidName(item.name) then item.name.value else "Unknown"
  }

  /** The error entry for the item at 1-based `position`. */
  function FailureEntry(position: nat, item: LineItem): CartError {
    ItemFailed(position, Label(item), ValidateCartItem(item).errors)
  }

  /** One entry per invalid item, in cart order, labelled with its 1-based position. */
  function ErrorReport(items: seq<LineItem>): (r: seq<CartError>)
    ensures |r| == 0 <==> forall i :: 0 <= i < |items| ==> IsValidItem(items[i])
    ensures |r| <= |items|
  {
    if |items| == 0 then []
    else
      var n := |items|;
      var rest := ErrorReport(items[..n - 1]);
      assert forall i :: 0 <= i < n - 1 ==> items[..n - 1][i] == items[i];
      rest + (if IsValidItem(items[n - 1]) then [] else [FailureEntry(n, items[n - 1])])
  }

  /** The report on one more item is the report so far plus that item's entry, if any. */
  lemma ErrorReportExtend(items: seq<LineItem>, i: nat)
    requires i < |items|
    ensures ErrorReport(items[..i + 1]) == ErrorReport(items[..i])
      + (if IsValidItem(items[i]) then [] else [FailureEntry(i + 1, items[i])])
  {
    assert items[..i + 1][..i] == items[..i] && items[..i + 1][i] == items[i];
  }

  /** One entry per invalid item: the report has as many entries as
      `cleanCart` drops items. */
  lemma {:induction false} ErrorReportCountsInvalidItems(items: seq<LineItem>)
    ensures |ErrorReport(items)| + |CleanCart(items)| == |items|
  {
    if |items| > 0 {
      var n := |items|;
      var init := items[..n - 1];
      ErrorReportCountsInvalidItems(init);
      CountsStep(items);
    }
  }

  /** The last item adds one report entry or one kept item, never both. */
  lemma CountsStep(items: seq<LineItem>)
    requires |items| > 0
    ensures var init := items[..|items| - 1];
      |ErrorReport(items)| + |CleanCart(items)| == |ErrorReport(init)| + |CleanCart(init)| + 1
  {
    var n := |items|;
    var init := items[..n - 1];
    var last := items[n - 1];
    ErrorReportExtend(items, n - 1);
    assert items[..n] == items;
    assert init + [last] == items;
    CleanCartConcat(init, [last]);
    CleanCartSingle(last);
  }

  lemma CleanCartSingle(item: LineItem)
    ensures |CleanCart([item])| == if IsValidItem(item) then 1 else 0
  {
    assert [item][1..] == [];
  }

  /** Every entry is an item failure at a position up to `bound`, and the
      positions strictly increase. */
  predicate InCartOrder(r: seq<CartError>, bound: nat) {
    && (forall a :: 0 <= a < |r| ==> r[a].ItemFailed? && r[a].position <= bound)
    && (forall a, b :: 0 <= a < b < |r| ==> r[a].ItemFailed? && r[b].ItemFailed? && r[a].position < r[b].position)
  }

  /** Appending an entry at the next position keeps a report in order. */
  lemma InCartOrderExtend(rest: seq<CartError>, last: seq<CartError>, n: nat)
    requires n > 0 && InCartOrder(rest, n - 1)
    requires last == [] || (|last| == 1 && last[0].ItemFailed? && last[0].position == n)
    ensures InCartOrder(rest + last, n)
  {
    var r := rest + last;
    forall a, b | 0 <= a < b < |r|
      ensures r[a].ItemFailed? && r[b].ItemFailed? && r[a].position < r[b].position
    {
      if b >= |rest| {
        assert r[a] == rest[a] && r[b] == last[b - |rest|];
      }
    }
  }

  /** The entries are in cart order: their positions strictly increase. */
  lemma {:induction false} ErrorReportInCartOrder(items: seq<LineItem>)
    ensures InCartOrder(ErrorReport(items), |items|)
  {
    if |items| > 0 {
      var n := |items|;
      var init := items[..n - 1];
      ErrorReportInCartOrder(init);
      ErrorReportExtend(items, n - 1);
      assert items[..n] == items;
      InCartOrderExtend(ErrorReport(init), if IsValidItem(items[n - 1]) then [] else [FailureEntry(n, items[n - 1])], n);
    }
  }

  /** Every entry of the report stands for an invalid item at its position. */
  lemma {:induction false} ErrorReportSound(items: seq<LineItem>)
    ensures forall e :: e in ErrorReport(items) ==>
      e.ItemFailed? && 1 <= e.position <= |items|
      && e == FailureEntry(e.position, items[e.position - 1])
      && !IsValidItem(items[e.position - 1])
  {
    if |items| > 0 {
      var n := |items|;
      var init := items[..n - 1];
      ErrorReportSound(init);
      ErrorReportExtend(items, n - 1);
      assert items[..n] == items;
      var last := if IsValidItem(items[n - 1]) then [] else [FailureEntry(n, items[n - 1])];
      forall e | e in ErrorReport(items)
        ensures e.ItemFailed? && 1 <= e.position <= n
          && e == FailureEntry(e.position, items[e.position - 1])
          && !IsValidItem(items[e.position - 1])
      {
        if e in ErrorReport(init) {
          assert e.position <= n - 1;
          assert init[e.position - 1] == items[e.position - 1];
        } else {
          assert e in last;
          assert e == FailureEntry(n, items[n - 1]);
        }
      }
    }
  }

  /** Every invalid item has its entry in the report. */
  lemma {:induction false} ErrorReportComplete(items: seq<LineItem>)
    ensures forall i :: 0 <= i < |items| && !IsValidItem(items[i]) ==>
      FailureEntry(i + 1, items[i]) in ErrorReport(items)
  {
    if |items| > 0 {
      var n := |items|;
      var init := items[..n - 1];
      ErrorReportComplete(init);
      ErrorReportExtend(items, n - 1);
      assert items[..n] == items;
      forall i | 0 <= i < n && !IsValidItem(items[i])
        ensures FailureEntry(i + 1, items[i]) in ErrorReport(items)
      {
        if i < n - 1 {
          assert init[i] == items[i];
        }
      }
    }
  }

  function Ids(items: seq<LineItem>): (r: seq<ProductId>)
    ensures |r| == |items|
    ensures forall i :: 0 <= i < |items| ==> r[i] == items[i].id
  {
    seq(|items|, i requires 0 <= i < |items| => items[i].id)
  }

  /** `items.findIndex(item => item.id === id)`: the first position holding `id`. */
  function FirstIndexOf(items: seq<LineItem>, id: ProductId): (r: Option<nat>)
    ensures r.Some? ==> r.value < |items| && items[r.value].id == id
    ensures r.Some? ==> forall k :: 0 <= k < r.value ==> items[k].id != id
    ensures r.None? ==> forall k :: 0 <= k < |items| ==> items[k].id != id
  {
    if |items| == 0 then None
    else if items[0].id == id then Some(0)
    else match FirstIndexOf(items[1..], id)
      case Some(j) => Some(j + 1)
      case None => None
  }

  predicate Distinct(ids: seq<ProductId>) {
    forall i, j :: 0 <= i < j < |ids| ==> ids[i] != ids[j]
  }

  /** `x` occurs at least twice in `ids`. */
  predicate Repeated(ids: seq<ProductId>, x: ProductId) {
    exists i, j :: 0 <= i < j < |ids| && ids[i] == x && ids[j] == x
  }

  /** `ids.filter((id, index) => ids.indexOf(id) !== index)`: every occurrence
      of an id after its first one. */
  function RepeatedIds(ids: seq<ProductId>): (r: seq<ProductId>)
    ensures |r| == 0 <==> Distinct(ids)
    ensures forall x :: x in r <==> Repeated(ids, x)
  {
    if |ids| == 0 then []
    else
      var n := |ids|;
      var init := ids[..n - 1];
      var rest := RepeatedIds(init);
      assert forall i :: 0 <= i < n - 1 ==> init[i] == ids[i];
      assert forall x :: Repeated(init, x) ==> Repeated(ids, x);
      assert Distinct(ids) <==> Distinct(init) && ids[n - 1] !in init;
      rest + (if ids[n - 1] in init then [ids[n - 1]] else [])
  }

  /** Every occurrence of an id after its first one is listed: an id that
      occurs k times is listed k - 1 times. */
  lemma {:induction false} RepeatedIdsCountsLaterOccurrences(ids: seq<ProductId>)
    ensures forall x :: x in ids ==> multiset(RepeatedIds(ids))[x] == multiset(ids)[x] - 1
  {
    if |ids| > 0 {
      var n := |ids|;
      var init := ids[..n - 1];
      var last := ids[n - 1];
      RepeatedIdsCountsLaterOccurrences(init);
      assert ids == init + [last];
      var r := RepeatedIds(ids);
      var rest := RepeatedIds(init);
      assert r == rest + (if last in init then [last] else []);
      forall x | x in ids ensures multiset(r)[x] == multiset(ids)[x] - 1 {
        if x !in init {
          assert x !in rest;
        }
      }
    }
  }

  /** The repeated occurrences come in the order they have in `ids`. */
  lemma {:induction false} RepeatedIdsInOrder(ids: seq<ProductId>)
    ensures IsSubsequence(RepeatedIds(ids), ids)
  {
    if |ids| > 0 {
      var n := |ids|;
      var init := ids[..n - 1];
      RepeatedIdsInOrder(init);
      assert ids == init + [ids[n - 1]];
      if ids[n - 1] in init {
        assert RepeatedIds(ids) == RepeatedIds(init) + [ids[n - 1]];
        SubsequenceExtendBoth(RepeatedIds(init), init, ids[n - 1]);
      } else {
        assert RepeatedIds(ids) == RepeatedIds(init) + [];
        assert RepeatedIds(ids) == RepeatedIds(init);
        SubsequenceExtendRight(RepeatedIds(init), init, ids[n - 1]);
      }
    }
  }

  /** The positions, in increasing order, of every occurrence of an id after
      its first one. */
  function LaterPositions(ids: seq<ProductId>): (p: seq<nat>)
    ensures forall t :: 0 <= t < |p| ==> p[t] < |ids|
    ensures forall t, u :: 0 <= t < u < |p| ==> p[t] < p[u]
    ensures forall j :: 0 <= j < |ids| ==> (j in p <==> ids[j] in ids[..j])
  {
    if |ids| == 0 then []
    else
      var n := |ids|;
      var rest := LaterPositions(ids[..n - 1]);
      LaterPositionsExtend(ids, rest);
      rest + (if ids[n - 1] in ids[..n - 1] then [n - 1] else [])
  }

  lemma LaterPositionsExtend(ids: seq<ProductId>, rest: seq<nat>)
    requires |ids| > 0
    requires var init := ids[..|ids| - 1];
      && (forall t :: 0 <= t < |rest| ==> rest[t] < |init|)
      && (forall t, u :: 0 <= t < u < |rest| ==> rest[t] < rest[u])
      && (forall j :: 0 <= j < |init| ==> (j in rest <==> init[j] in init[..j]))
    ensures var n := |ids|;
      var p := rest + (if ids[n - 1] in ids[..n - 1] then [n - 1] else []);
      && (forall t :: 0 <= t < |p| ==> p[t] < n)
      && (forall t, u :: 0 <= t < u < |p| ==> p[t] < p[u])
      && (forall j :: 0 <= j < n ==> (j in p <==> ids[j] in ids[..j]))
  {
    var n := |ids|;
    var init := ids[..n - 1];
    forall j | 0 <= j < n - 1 ensures init[j] == ids[j] && init[..j] == ids[..j] {
    }
  }

  /** The duplicates list is the ids at those positions, in that order: the
      t-th listed id is the t-th later occurrence. */
  lemma {:induction false} RepeatedIdsAtLaterPositions(ids: seq<ProductId>)
    ensures |RepeatedIds(ids)| == |LaterPositions(ids)|
    ensures forall t :: 0 <= t < |LaterPositions(ids)| ==> RepeatedIds(ids)[t] == ids[LaterPositions(ids)[t]]
  {
    if |ids| > 0 {
      var n := |ids|;
      var init := ids[..n - 1];
      RepeatedIdsAtLaterPositions(init);
      RepeatedIdsStep(ids);
      IndexedExtend(ids, RepeatedIds(init), LaterPositions(init), ids[n - 1] in init);
    }
  }

  /** Both lists grow by the last position exactly when its id occurred before. */
  lemma RepeatedIdsStep(ids: seq<ProductId>)
    requires |ids| > 0
    ensures var n := |ids|;
      var init := ids[..n - 1];
      && RepeatedIds(ids) == RepeatedIds(init) + (if ids[n - 1] in init then [ids[n - 1]] else [])
      && LaterPositions(ids) == LaterPositions(init) + (if ids[n - 1] in init then [n - 1] else [])
  {
  }

  /** Extending a list of positions and the ids at them by the last position
      keeps each id the one at its position. */
  lemma IndexedExtend(ids: seq<ProductId>, r: seq<ProductId>, p: seq<nat>, add: bool)
    requires |ids| > 0 && |r| == |p|
    requires forall t :: 0 <= t < |p| ==> p[t] < |ids| - 1 && r[t] == ids[..|ids| - 1][p[t]]
    ensures var r' := r + (if add then [ids[|ids| - 1]] else []);
      var p' := p + (if add then [|ids| - 1] else []);
      |r'| == |p'| && forall t :: 0 <= t < |p'| ==> r'[t] == ids[p'[t]]
  {
  }

  function Warnings(items: seq<LineItem>): seq<Warning> {
    var duplicates := RepeatedIds(Ids(items));
    (if |duplicates| > 0 then [DuplicateItems(duplicates)] else [])
    + (if |items| > MAX_ITEMS then [TooManyItems] else [])
  }

  /** Warnings flag exactly the repeated ids and an oversized cart, and
      nothing else. */
  lemma WarningsFlagDuplicatesAndSize(items: seq<LineItem>)
    ensures TooManyItems in Warnings(items) <==> |items| > MAX_ITEMS
    ensures DuplicateItems(RepeatedIds(Ids(items))) in Warnings(items) <==> !Distinct(Ids(items))
    ensures forall w :: w in Warnings(items) ==>
      w == TooManyItems || w == DuplicateItems(RepeatedIds(Ids(items)))
  {
  }

  /** The report `validateCart` produces for an input. */
  function CartReportOf(input: CartInput): (r: CartReport)
    ensures r.isValid <==> |r.errors| == 0
  {
    if input.NotAList? then CartReport(false, [NotAnArray], [])
    else
      var errors := ErrorReport(input.items);
      CartReport(|errors| == 0, errors, Warnings(input.items))
  }

  /** `validateCart`: a non-list gives one structural error and no warnings;
      a list is valid exactly when each of its items is, while duplicate ids
      and oversized carts only add warnings. */
  method ValidateCart(input: CartInput) returns (r: CartReport)
    ensures r == CartReportOf(input)
    ensures input.NotAList? ==> !r.isValid && r.errors == [NotAnArray] && r.warnings == []
    ensures input.List? ==>
      (r.isValid <==> forall i :: 0 <= i < |input.items| ==> IsValidItem(input.items[i]))
    ensures input.List? ==> r.warnings == Warnings(input.items)
  {
    if input.NotAList? {
      return CartReport(false, [NotAnArray], []);
    }
    var items := input.items;

    var errors: seq<CartError> := [];
    for i := 0 to |items|
      invariant errors == ErrorReport(items[..i])
    {
      var validation := ValidateCartItem(items[i]);
      ErrorReportExtend(items, i);
      if !validation.isValid {
        errors := errors + [ItemFailed(i + 1, Label(items[i]), validation.errors)];
      }
    }
    assert errors == ErrorReport(items) by {
      assert items[..|items|] == items;
    }

    var warnings: seq<Warning> := [];
    var duplicates := RepeatedIds(Ids(items));
    if |duplicates| > 0 {
      warnings := warnings + [DuplicateItems(duplicates)];
    }
    if |items| > MAX_ITEMS {
      warnings := warnings + [TooManyItems];
    }
    assert warnings == Warnings(items);
    assert CartReportOf(input) == CartReport(|errors| == 0, errors, warnings);
    r := CartReport(|errors| == 0, errors, warnings);
  }

  // ---------------------------------------------------------------------
  // Removing invalid items

  /** `cleanCart`: the items that pass `validateCartItem`, in cart order. */
  function CleanCart(items: seq<LineItem>): (r: seq<LineItem>)
    ensures forall x :: x in r <==> x in items && IsValidItem(x)
    ensures |r| <= |items|
  {
    if |items| == 0 then []
    else (if IsValidItem(items[0]) then [items[0]] else []) + CleanCart(items[1..])
  }

  /** `a` is `b` with some elements taken out, order kept. */
  predicate IsSubsequence<T(==)>(a: seq<T>, b: seq<T>)
    decreases |b|
  {
    |a| == 0 || (|b| > 0 && if a[0] == b[0] then IsSubsequence(a[1..], b[1..]) else IsSubsequence(a, b[1..]))
  }

  lemma {:induction false} SubsequenceExtendRight<T>(a: seq<T>, b: seq<T>, x: T)
    requires IsSubsequence(a, b)
    ensures IsSubsequence(a, b + [x])
    decreases |b|
  {
    if |a| > 0 {
      assert (b + [x])[0] == b[0] && (b + [x])[1..] == b[1..] + [x];
      if a[0] == b[0] {
        SubsequenceExtendRight(a[1..], b[1..], x);
      } else {
        SubsequenceExtendRight(a, b[1..], x);
      }
    }
  }

  lemma {:induction false} SubsequenceLast<T>(b: seq<T>, x: T)
    ensures IsSubsequence([x], b + [x])
    decreases |b|
  {
    if |b| > 0 {
      assert (b + [x])[1..] == b[1..] + [x];
      if b[0] != x {
        SubsequenceLast(b[1..], x);
      }
    } else {
      assert b + [x] == [x] && [x][1..] == [];
    }
  }

  lemma {:induction false} SubsequenceExtendBoth<T>(a: seq<T>, b: seq<T>, x: T)
    requires IsSubsequence(a, b)
    ensures IsSubsequence(a + [x], b + [x])
    decreases |b|
  {
    if |a| == 0 {
      assert a + [x] == [x];
      SubsequenceLast(b, x);
    } else {
      assert (a + [x])[0] == a[0] && (a + [x])[1..] == a[1..] + [x];
      assert (b + [x])[0] == b[0] && (b + [x])[1..] == b[1..] + [x];
      if a[0] == b[0] {
        SubsequenceExtendBoth(a[1..], b[1..], x);
      } else {
        SubsequenceExtendBoth(a, b[1..], x);
      }
    }
  }

  lemma {:induction false} CleanCartIsSubsequence(items: seq<LineItem>)
    ensures IsSubsequence(CleanCart(items), items)
  {
    if |items| > 0 {
      CleanCartIsSubsequence(items[1..]);
      var r := CleanCart(items);
      if IsValidItem(items[0]) {
        assert r[0] == items[0] && r[1..] == CleanCart(items[1..]);
      } else {
        assert r == CleanCart(items[1..]);
      }
    }
  }

  lemma {:induction false} CleanCartConcat(a: seq<LineItem>, b: seq<LineItem>)
    ensures CleanCart(a + b) == CleanCart(a) + CleanCart(b)
  {
    if |a| > 0 {
      assert (a + b)[1..] == a[1..] + b;
      CleanCartConcat(a[1..], b);
    } else {
      assert a + b == b;
    }
  }

  /** A cart whose items are all valid is left as it is, and only such a cart is. */
  lemma {:induction false} CleanCartKeepsValidCart(items: seq<LineItem>)
    ensures CleanCart(items) == items <==> forall i :: 0 <= i < |items| ==> IsValidItem(items[i])
  {
    if |items| > 0 {
      var rest := items[1..];
      CleanCartKeepsValidCart(rest);
      if !IsValidItem(items[0]) {
        assert CleanCart(items) == CleanCart(rest);
        assert |CleanCart(items)| <= |rest| < |items|;
      } else {
        assert CleanCart(items) == [items[0]] + CleanCart(rest);
        assert items == [items[0]] + rest;
        assert forall i :: 1 <= i < |items| ==> items[i] == rest[i - 1];
      }
    }
  }

  /** Every item `cleanCart` keeps is valid. */
  lemma CleanCartAllValid(items: seq<LineItem>)
    ensures forall i :: 0 <= i < |CleanCart(items)| ==> IsValidItem(CleanCart(items)[i])
  {
  }

  lemma {:induction false} CleanCartIdempotent(items: seq<LineItem>)
    ensures CleanCart(CleanCart(items)) == CleanCart(items)
  {
    CleanCartAllValid(items);
    CleanCartKeepsValidCart(CleanCart(items));
  }

  // ---------------------------------------------------------------------
  // Totals

  /** `parseFloat(item.price) || 0` times `parseInt(item.quantity) || 0`. */
  function LineAmount(item: LineItem): real {
    OrZero(PriceNumber(item.price)) * TruncOrZero(item.quantity) as real
  }

  /** The unrounded subtotal: the sum of the line amounts. */
  function LinesSum(items: seq<LineItem>): real {
    if |items| == 0 then 0.0 else LineAmount(items[0]) + LinesSum(items[1..])
  }

  /** The item count: the sum of `parseInt(item.quantity) || 0`. */
  function QuantitySum(items: seq<LineItem>): int {
    if |items| == 0 then 0 else TruncOrZero(items[0].quantity) + QuantitySum(items[1..])
  }

  lemma {:induction false} SumsConcat(a: seq<LineItem>, b: seq<LineItem>)
    ensures LinesSum(a + b) == LinesSum(a) + LinesSum(b)
    ensures QuantitySum(a + b) == QuantitySum(a) + QuantitySum(b)
  {
    if |a| > 0 {
      assert (a + b)[1..] == a[1..] + b;
      SumsConcat(a[1..], b);
    } else {
      assert a + b == b;
    }
  }

  /** Over valid items nothing is treated as zero or truncated: each line
      counts its exact quantity, and amounts and counts are not negative. */
  lemma {:induction false} ValidItemsSums(items: seq<LineItem>)
    requires forall i :: 0 <= i < |items| ==> IsValidItem(items[i])
    ensures LinesSum(items) >= 0.0
    ensures QuantitySum(items) >= |items|
  {
    if |items| > 0 {
      assert IsValidItem(items[0]);
      ValidItemsSums(items[1..]);
    }
  }

  datatype CartTotals = CartTotals(
    subtotal: real,
    tax: real,
    shipping: real,
    total: real,
    totalItems: int,
    validation: CartReport)

  /** `calculateCartTotals`: always computed, even over invalid items; each
      money field is the exact figure rounded once, to the nearest cent. */
  function CalculateCartTotals(items: seq<LineItem>): (t: CartTotals)
    ensures IsCents(t.subtotal) && IsCents(t.tax) && IsCents(t.shipping) && IsCents(t.total)
    ensures LinesSum(items) - 0.005 < t.subtotal <= LinesSum(items) + 0.005
    ensures LinesSum(items) * TAX_RATE - 0.005 < t.tax <= LinesSum(items) * TAX_RATE + 0.005
    ensures t.shipping == SHIPPING_COST
    ensures var exact := LinesSum(items) * (1.0 + TAX_RATE) + SHIPPING_COST;
      exact - 0.005 < t.total <= exact + 0.005
    ensures t.totalItems == QuantitySum(items)
    ensures t.validation == CartReportOf(List(items))
  {
    var subtotal := LinesSum(items);
    var tax := subtotal * TAX_RATE;
    var shipping := SHIPPING_COST;
    var total := subtotal + tax + shipping;
    CartTotals(
      RoundCents(subtotal),
      RoundCents(tax),
      RoundCents(shipping),
      RoundCents(total),
      QuantitySum(items),
      CartReportOf(List(items)))
  }

  // ---------------------------------------------------------------------
  // Comparing two sets of totals

  datatype Field = Subtotal | Tax | Shipping | Total | TotalItems

  /** The fields `verifyCalculations` compares, in its order. */
  const Fields: seq<Field> := [Subtotal, Tax, Shipping, Total, TotalItems]

  lemma AllFieldsListed()
    ensures forall f: Field :: f in Fields
  {
    forall f: Field ensures f in Fields {
      match f
      case Subtotal => assert Fields[0] == f;
      case Tax => assert Fields[1] == f;
      case Shipping => assert Fields[2] == f;
      case Total => assert Fields[3] == f;
      case TotalItems => assert Fields[4] == f;
    }
  }

  /** A totals record as `verifyCalculations` reads it; NaN stands for a
      missing or unparseable field. */
  datatype Figures = Figures(
    subtotal: JsNumber,
    tax: JsNumber,
    shipping: JsNumber,
    total: JsNumber,
    totalItems: JsNumber)

  /** `parseFloat(record[field]) || 0` */
  function FieldValue(f: Field, r: Figures): real {
    OrZero(match f
      case Subtotal => r.subtotal
      case Tax => r.tax
      case Shipping => r.shipping
      case Total => r.total
      case TotalItems => r.totalItems)
  }

  function Abs(x: real): real {
    if x < 0.0 then -x else x
  }

  /** Two values agree when they are at most one cent apart. */
  const TOLERANCE: real := 0.01

  predicate Mismatch(f: Field, current: Figures, expected: Figures) {
    Abs(FieldValue(f, current) - FieldValue(f, expected)) > TOLERANCE
  }

  datatype Difference = Difference(current: real, expected: real, difference: real)

  function DifferenceOf(f: Field, current: Figures, expected: Figures): Difference {
    var c := FieldValue(f, current);
    var e := FieldValue(f, expected);
    Difference(c, e, Abs(c - e))
  }

  datatype Verification = Verification(isValid: bool, differences: map<Field, Difference>)

  /** `verifyCalculations`: valid exactly when every field agrees within one
      cent; `differences` holds exactly the fields that do not, with both
      values and their distance. */
  method VerifyCalculations(current: Figures, expected: Figures) returns (r: Verification)
    ensures r.isValid <==> forall f: Field :: !Mismatch(f, current, expected)
    ensures forall f: Field :: f in r.differences <==> Mismatch(f, current, expected)
    ensures forall f :: f in r.differences ==> r.differences[f] == DifferenceOf(f, current, expected)
  {
    var differences: map<Field, Difference> := map[];
    var isValid := true;
    for k := 0 to |Fields|
      invariant forall f :: f in differences <==> f in Fields[..k] && Mismatch(f, current, expected)
      invariant forall f :: f in differences ==> differences[f] == DifferenceOf(f, current, expected)
      invariant isValid <==> forall f :: f in Fields[..k] ==> !Mismatch(f, current, expected)
    {
      var field := Fields[k];
      var c := FieldValue(field, current);
      var e := FieldValue(field, expected);
      var diff := Abs(c - e);
      assert Mismatch(field, current, expected) <==> diff > TOLERANCE;
      if diff > TOLERANCE {
        differences := differences[field := Difference(c, e, diff)];
        isValid := false;
      }
      assert Fields[..k + 1] == Fields[..k] + [field];
    }
    assert Fields[..|Fields|] == Fields;
    AllFieldsListed();
    r := Verification(isValid, differences);
  }

  /** The figures of a totals record. */
  function TotalsFigures(t: CartTotals): Figures {
    Figures(Finite(t.subtotal), Finite(t.tax), Finite(t.shipping), Finite(t.total), Finite(t.totalItems as real))
  }

  /** The exact, unrounded figures of a cart. */
  function ExactFigures(items: seq<LineItem>): Figures {
    var subtotal := LinesSum(items);
    var tax := subtotal * TAX_RATE;
    Figures(
      Finite(subtotal),
      Finite(tax),
      Finite(SHIPPING_COST),
      Finite(subtotal + tax + SHIPPING_COST),
      Finite(QuantitySum(items) as real))
  }

  /** Rounding to cents never costs more than the one-cent tolerance: the
      totals of any cart agree with its exact figures on every field. */
  lemma RoundedTotalsMatchExact(items: seq<LineItem>)
    ensures forall f: Field :: !Mismatch(f, TotalsFigures(CalculateCartTotals(items)), ExactFigures(items))
  {
  }

  // ---------------------------------------------------------------------
  // Cart health

  datatype CartHealth = CartHealth(
    isHealthy: bool,
    itemCount: nat,
    totalItems: int,
    totalValue: real,
    errors: seq<CartError>,
    warnings: seq<Warning>)

  /** `getCartHealth` as written: it appends the validation embedded in the
      totals to the cart validation, but both are the same validation. */
  function GetCartHealthAsWritten(items: seq<LineItem>): (h: CartHealth)
    ensures h.isHealthy <==> forall i :: 0 <= i < |items| ==> IsValidItem(items[i])
    ensures h.itemCount == |items| && h.totalItems == QuantitySum(items)
    ensures h.totalValue == CalculateCartTotals(items).total
  {
    var validation := CartReportOf(List(items));
    var totals := CalculateCartTotals(items);
    CartHealth(
      validation.isValid && totals.validation.isValid,
      |items|,
      totals.totalItems,
      totals.total,
      validation.errors + totals.validation.errors,
      validation.warnings + totals.validation.warnings)
  }

  /** As written, every error and every warning is reported twice. */
  lemma HealthAsWrittenRepeatsEverything(items: seq<LineItem>)
    ensures var h := GetCartHealthAsWritten(items);
      var v := CartReportOf(List(items));
      h.errors == v.errors + v.errors && h.warnings == v.warnings + v.warnings
  {
  }

  /** A one-item cart whose only problem is a negative price. */
  function NegativePriceCart(): seq<LineItem> {
    [LineItem(NumberId(1), Some("Test Product"), Number(Finite(-1.0)), Finite(1.0), None)]
  }

  /** The cart holds one invalid item, yet the report as written lists two errors. */
  lemma HealthAsWrittenCountsOneErrorTwice()
    ensures |ErrorReport(NegativePriceCart())| == 1
    ensures |GetCartHealthAsWritten(NegativePriceCart()).errors| == 2
  {
    var items := NegativePriceCart();
    assert !ValidPrice(items[0].price);
    assert !IsValidItem(items[0]);
    assert ErrorReport(items) == ErrorReport(items[..0]) + [FailureEntry(1, items[0])];
  }

  /** `getCartHealth` with each error and warning reported once: healthy
      exactly when every item is valid, one error entry per invalid item. */
  function GetCartHealth(items: seq<LineItem>): (h: CartHealth)
    ensures h.isHealthy <==> forall i :: 0 <= i < |items| ==> IsValidItem(items[i])
    ensures h.isHealthy <==> |h.errors| == 0
    ensures h.errors == ErrorReport(items) && h.warnings == Warnings(items)
    ensures h.itemCount == |items| && h.totalItems == QuantitySum(items)
    ensures h.totalValue == CalculateCartTotals(items).total
  {
    var validation := CartReportOf(List(items));
    var totals := CalculateCartTotals(items);
    CartHealth(
      validation.isValid,
      |items|,
      totals.totalItems,
      totals.total,
      validation.errors,
      validation.warnings)
  }

  // ---------------------------------------------------------------------
  // The sample cart of the validation script

  function SampleCart(): seq<LineItem> {
    [
      LineItem(NumberId(1), Some("Product A"), Number(Finite(10.00)), Finite(2.0), Some(Finite(20.0))),
      LineItem(NumberId(2), Some("Product B"), Number(Finite(25.50)), Finite(1.0), Some(Finite(15.0))),
      LineItem(NumberId(3), Some("Product C"), Number(Finite(7.99)), Finite(3.0), Some(Finite(30.0)))
    ]
  }

  /** The sample cart is valid and totals 69.47 + 6.95 tax = 76.42 over 6 items. */
  lemma SampleCartTotals()
    ensures var t := CalculateCartTotals(SampleCart());
      && t.subtotal == 69.47 && t.tax == 6.95 && t.shipping == 0.0
      && t.total == 76.42 && t.totalItems == 6 && t.validation.isValid
  {
    var items := SampleCart();
    assert LinesSum(items[2..]) == 23.97;
    assert LinesSum(items[1..]) == 49.47;
    assert LinesSum(items) == 69.47;
    assert QuantitySum(items) == 6;
    assert (69.47 * 100.0 + 0.5).Floor == 6947;
    assert (69.47 * TAX_RATE * 100.0 + 0.5).Floor == 695;
    assert ((69.47 + 69.47 * TAX_RATE + SHIPPING_COST) * 100.0 + 0.5).Floor == 7642;
    assert forall i :: 0 <= i < |items| ==> IsValidItem(items[i]);
  }
}
