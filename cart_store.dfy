/**
 * The cart store: the list of line items and the cached totals shown in the
 * navigation bar. Every mutator writes the new list together with totals
 * recomputed over the valid items, so the cached totals always agree with
 * the list. Invalid items stay in the list but count for nothing.
 */
module CartStore {
  import opened JsValues
  import opened CartValidation

  datatype Totals = Totals(totalItems: int, totalPrice: real)

  /** `calculateTotals`: the item count and the rounded subtotal (before tax)
      of the valid items; both are never negative. */
  function CalculateTotals(items: seq<LineItem>): (t: Totals)
    ensures t.totalItems == QuantitySum(CleanCart(items))
    ensures t.totalItems >= |CleanCart(items)|
    ensures IsCents(t.totalPrice) && t.totalPrice >= 0.0
    ensures LinesSum(CleanCart(items)) - 0.005 < t.totalPrice <= LinesSum(CleanCart(items)) + 0.005
  {
    var validated := CleanCart(items);
    CleanCartAllValid(items);
    ValidItemsSums(validated);
    RoundCentsNonNegative(LinesSum(validated));
    var totals := CalculateCartTotals(validated);
    Totals(totals.totalItems, totals.subtotal)
  }

  // ---------------------------------------------------------------------
  // The new item lists the mutators build

  /** `items.map(...)` in `addItem`: every entry with the id gets `quantity` more. */
  function IncreasedQuantity(items: seq<LineItem>, id: ProductId, quantity: JsNumber): (r: seq<LineItem>)
    ensures |r| == |items| && Ids(r) == Ids(items)
    ensures forall i :: 0 <= i < |items| ==> r[i] == items[i].(quantity := r[i].quantity)
  {
    var r := seq(|items|, i requires 0 <= i < |items| =>
      if items[i].id == id then items[i].(quantity := Plus(items[i].quantity, quantity)) else items[i]);
    assert forall i :: 0 <= i < |items| ==> Ids(r)[i] == Ids(items)[i];
    r
  }

  /** The list `addItem` builds: a product already in the cart has its
      quantity raised, a new one is appended as a fresh entry. */
  function Added(items: seq<LineItem>, product: Product, quantity: JsNumber): (r: seq<LineItem>)
    ensures product.id in Ids(r)
    ensures |r| == if product.id in Ids(items) then |items| else |items| + 1
  {
    if FindItem(items, product.id).Some? then IncreasedQuantity(items, product.id, quantity)
    else
      var r := items + [NewLineItem(product, quantity)];
      assert Ids(r)[|items|] == product.id;
      r
  }

  /** The list `updateQuantity` builds: every entry with the id gets `quantity`. */
  function WithQuantity(items: seq<LineItem>, id: ProductId, quantity: JsNumber): (r: seq<LineItem>)
    ensures |r| == |items| && Ids(r) == Ids(items)
    ensures forall i :: 0 <= i < |items| ==> r[i] == items[i].(quantity := r[i].quantity)
  {
    var r := seq(|items|, i requires 0 <= i < |items| =>
      if items[i].id == id then items[i].(quantity := quantity) else items[i]);
    assert forall i :: 0 <= i < |items| ==> Ids(r)[i] == Ids(items)[i];
    r
  }

  /** The list `removeItem` builds: the entries with another id, in order. */
  function Without(items: seq<LineItem>, id: ProductId): (r: seq<LineItem>)
    ensures |r| <= |items|
    ensures forall x :: x in r <==> x in items && x.id != id
  {
    if |items| == 0 then []
    else (if items[0].id == id then [] else [items[0]]) + Without(items[1..], id)
  }

  /** `items.find(item => item.id === id)`: the first entry with the id. */
  function FindItem(items: seq<LineItem>, id: ProductId): (r: Option<LineItem>)
    ensures r.Some? <==> id in Ids(items)
    ensures r.Some? ==> r.value.id == id && r.value in items
    ensures forall j ::
      (0 <= j < |items| && items[j].id == id && forall k :: 0 <= k < j ==> items[k].id != id)
      ==> r == Some(items[j])
  {
    match FirstIndexOf(items, id)
    case Some(j) =>
      assert Ids(items)[j] == id;
      Some(items[j])
    case None =>
      assert forall k :: 0 <= k < |items| ==> Ids(items)[k] != id;
      None
  }

  // ---------------------------------------------------------------------
  // The store

  class Cart {
    var items: seq<LineItem>
    var totalItems: int
    var totalPrice: real

    /** The cached totals are those of the current list. */
    ghost predicate Valid()
      reads this
    {
      Totals(totalItems, totalPrice) == CalculateTotals(items)
    }

    /** The initial state: no items, zero totals. */
    constructor ()
      ensures items == [] && totalItems == 0 && totalPrice == 0.0
      ensures Valid()
    {
      items := [];
      totalItems := 0;
      totalPrice := 0.0;
      EmptyCartTotals();
    }

    /** Writes a new list together with its totals, as each `set(...)` does. */
    method SetItems(newItems: seq<LineItem>)
      modifies this
      ensures items == newItems
      ensures Valid()
    {
      var totals := CalculateTotals(newItems);
      items, totalItems, totalPrice := newItems, totals.totalItems, totals.totalPrice;
    }

    /** `addItem(product, quantity)`; the default quantity of 1 is the caller's. */
    method AddItem(product: Product, quantity: JsNumber)
      modifies this
      ensures items == Added(old(items), product, quantity)
      ensures Valid()
    {
      var existingItem := FindItem(items, product.id);
      var newItems;
      if existingItem.Some? {
        newItems := IncreasedQuantity(items, product.id, quantity);
      } else {
        newItems := items + [NewLineItem(product, quantity)];
      }
      SetItems(newItems);
    }

    /** `updateQuantity(productId, quantity)`: no stock or sign check here. */
    method UpdateQuantity(productId: ProductId, quantity: JsNumber)
      modifies this
      ensures items == WithQuantity(old(items), productId, quantity)
      ensures Valid()
    {
      SetItems(WithQuantity(items, productId, quantity));
    }

    /** `removeItem(productId)` */
    method RemoveItem(productId: ProductId)
      modifies this
      ensures items == Without(old(items), productId)
      ensures Valid()
    {
      SetItems(Without(items, productId));
    }

    /** `clearCart()` */
    method ClearCart()
      modifies this
      ensures items == [] && totalItems == 0 && totalPrice == 0.0
      ensures Valid()
    {
      items, totalItems, totalPrice := [], 0, 0.0;
      EmptyCartTotals();
    }

    /** `getItem(productId)`: the first entry with the id, if any. */
    method GetItem(productId: ProductId) returns (r: Option<LineItem>)
      ensures r == FindItem(items, productId)
    {
      r := FindItem(items, productId);
    }

    /** `onRehydrateStorage`: the stored totals are not trusted but recomputed
        from the stored items, whatever they were. */
    method Rehydrate()
      modifies this
      ensures items == old(items)
      ensures Valid()
    {
      var totals := CalculateTotals(items);
      totalItems := totals.totalItems;
      totalPrice := totals.totalPrice;
    }
  }

  // ---------------------------------------------------------------------
  // Properties of the mutators

  /** The empty cart's totals are zero, so `clearCart` keeps them right. */
  lemma EmptyCartTotals()
    ensures CalculateTotals([]) == Totals(0, 0.0)
  {
    RoundCentsOfCents(0.0);
  }

  /** Adding a product already in the cart raises the quantity of its entries
      by `quantity`: no entry is added and nothing else changes. */
  lemma AddExistingRaisesQuantity(items: seq<LineItem>, product: Product, quantity: JsNumber)
    requires product.id in Ids(items)
    ensures var r := Added(items, product, quantity);
      && |r| == |items|
      && Ids(r) == Ids(items)
      && (forall i :: 0 <= i < |items| && items[i].id == product.id ==>
           r[i] == items[i].(quantity := Plus(items[i].quantity, quantity)))
      && (forall i :: 0 <= i < |items| && items[i].id != product.id ==> r[i] == items[i])
  {
    var r := Added(items, product, quantity);
    assert |r| == |Ids(items)|;
    assert forall i :: 0 <= i < |items| ==> Ids(r)[i] == Ids(items)[i];
  }

  /** Adding a product with a new id appends one entry at the end, carrying
      the product's fields, the given quantity and the price as a number. */
  lemma AddNewAppends(items: seq<LineItem>, product: Product, quantity: JsNumber)
    requires product.id !in Ids(items)
    ensures var r := Added(items, product, quantity);
      && |r| == |items| + 1
      && r[..|items|] == items
      && r[|items|].id == product.id && r[|items|].name == product.name && r[|items|].stock == product.stock
      && r[|items|].quantity == quantity
      && r[|items|].price.Number? && PriceNumber(r[|items|].price) == PriceNumber(product.price)
  {
    var r := Added(items, product, quantity);
    assert r[..|items|] == items;
  }

  /** After `addItem` the product can be found: a new one as its fresh entry,
      an existing one with its quantity raised by `quantity`. */
  lemma AddThenFind(items: seq<LineItem>, product: Product, quantity: JsNumber)
    ensures var found := FindItem(Added(items, product, quantity), product.id);
      && found.Some?
      && (product.id !in Ids(items) ==> found == Some(NewLineItem(product, quantity)))
      && (product.id in Ids(items) ==>
           found.value.quantity == Plus(FindItem(items, product.id).value.quantity, quantity))
  {
    var r := Added(items, product, quantity);
    if product.id in Ids(items) {
      var j := FirstIndexOf(items, product.id).value;
      assert FirstIndexOf(r, product.id) == Some(j) by {
        FirstIndexUnique(r, product.id, j);
      }
    } else {
      AddNewAppends(items, product, quantity);
      assert FirstIndexOf(r, product.id) == Some(|items|) by {
        assert forall k :: 0 <= k < |items| ==> Ids(items)[k] == r[k].id;
        FirstIndexUnique(r, product.id, |items|);
      }
    }
  }

  /** An index whose entry has the id and no earlier entry does is the one
      `FirstIndexOf` finds. */
  lemma FirstIndexUnique(items: seq<LineItem>, id: ProductId, j: nat)
    requires j < |items| && items[j].id == id
    requires forall k :: 0 <= k < j ==> items[k].id != id
    ensures FirstIndexOf(items, id) == Some(j)
  {
  }

  /** `updateQuantity` sets the quantity of the entries with the id to exactly
      the given value and leaves everything else alone; an unknown id leaves
      the list unchanged. */
  lemma UpdateSetsQuantity(items: seq<LineItem>, id: ProductId, quantity: JsNumber)
    ensures var r := WithQuantity(items, id, quantity);
      && |r| == |items|
      && Ids(r) == Ids(items)
      && (forall i :: 0 <= i < |items| && items[i].id == id ==>
           r[i].quantity == quantity && r[i] == items[i].(quantity := r[i].quantity))
      && (forall i :: 0 <= i < |items| && items[i].id != id ==> r[i] == items[i])
      && (id !in Ids(items) ==> r == items)
  {
    var r := WithQuantity(items, id, quantity);
    assert forall i :: 0 <= i < |items| ==> Ids(r)[i] == Ids(items)[i];
    if id !in Ids(items) {
      assert forall i :: 0 <= i < |items| ==> Ids(items)[i] != id;
    }
  }

  /** `removeItem` keeps the entries with another id in their order and no
      entry with the id. */
  lemma {:induction false} RemoveKeepsOrder(items: seq<LineItem>, id: ProductId)
    ensures IsSubsequence(Without(items, id), items)
    ensures id !in Ids(Without(items, id))
  {
    if |items| > 0 {
      RemoveKeepsOrder(items[1..], id);
      var r := Without(items, id);
      if items[0].id != id {
        assert r[0] == items[0] && r[1..] == Without(items[1..], id);
      } else {
        assert r == Without(items[1..], id);
        assert |r| > 0 ==> r[0] in r && r[0] != items[0];
      }
    }
    var r := Without(items, id);
    assert forall k :: 0 <= k < |r| ==> r[k] in r && Ids(r)[k] != id;
  }

  /** `removeItem` drops every occurrence of the id and keeps every other entry as often as it occurred. */
  lemma {:induction false} RemoveKeepsOtherOccurrences(items: seq<LineItem>, id: ProductId)
    ensures forall x :: multiset(Without(items, id))[x] == if x.id == id then 0 else multiset(items)[x]
  {
    if |items| > 0 {
      RemoveKeepsOtherOccurrences(items[1..], id);
      assert items == [items[0]] + items[1..];
      assert multiset(items) == multiset([items[0]]) + multiset(items[1..]);
      var head := if items[0].id == id then [] else [items[0]];
      assert Without(items, id) == head + Without(items[1..], id);
      assert multiset(Without(items, id)) == multiset(head) + multiset(Without(items[1..], id));
    }
  }

  /** `removeItem` with an id that is not in the cart leaves the list unchanged. */
  lemma {:induction false} RemoveAbsentKeepsItems(items: seq<LineItem>, id: ProductId)
    requires id !in Ids(items)
    ensures Without(items, id) == items
  {
    if |items| > 0 {
      assert Ids(items)[0] == items[0].id;
      assert id !in Ids(items[1..]) by {
        assert forall k :: 0 <= k < |items| - 1 ==> Ids(items[1..])[k] == Ids(items)[k + 1];
      }
      RemoveAbsentKeepsItems(items[1..], id);
      assert items == [items[0]] + items[1..];
    }
  }

  /** Invalid items stay in the list but add nothing to the totals: the totals
      are those of the list with them taken out. */
  lemma TotalsIgnoreInvalidItem(before: seq<LineItem>, bad: LineItem, after: seq<LineItem>)
    requires !IsValidItem(bad)
    ensures CalculateTotals(before + [bad] + after) == CalculateTotals(before + after)
  {
    CleanCartConcat(before + [bad], after);
    CleanCartConcat(before, [bad]);
    CleanCartConcat(before, after);
    assert CleanCart([bad]) == [] + CleanCart([]);
    assert CleanCart(before + [bad]) == CleanCart(before);
  }

  /** For a cart of valid items the store's totals are the item count and
      the subtotal of `calculateCartTotals` on the whole list. */
  lemma ValidCartTotals(items: seq<LineItem>)
    requires forall i :: 0 <= i < |items| ==> IsValidItem(items[i])
    ensures CalculateTotals(items) ==
      Totals(CalculateCartTotals(items).totalItems, CalculateCartTotals(items).subtotal)
  {
    CleanCartKeepsValidCart(items);
  }

  // ---------------------------------------------------------------------
  // Worked scenarios

  /** Product 1 priced by the string "9.99", with 5 in stock. */
  function ProductOne(): Product {
    Product(NumberId(1), Some("Product 1"), NonNumber(Finite(9.99)), Some(Finite(5.0)))
  }

  /** Adding product 1 once and then twice more leaves a single entry with
      quantity 3, its price stored as a number, and the entry valid. */
  lemma AddTwiceAccumulates()
    ensures var r := Added(Added([], ProductOne(), Finite(1.0)), ProductOne(), Finite(2.0));
      && |r| == 1
      && r[0].quantity == Finite(3.0)
      && r[0].price == Number(Finite(9.99))
      && IsValidItem(r[0])
      && CalculateTotals(r) == Totals(3, 29.97)
  {
    var p := ProductOne();
    var entry := NewLineItem(p, Finite(1.0));
    var once := Added([], p, Finite(1.0));
    assert once == [entry];
    assert FindItem(once, p.id).Some? by {
      assert Ids(once)[0] == p.id;
    }
    var r := Added(once, p, Finite(2.0));
    var raised := entry.(quantity := Finite(3.0));
    assert r == [raised];
    assert IsValidItem(raised);
    assert CleanCart(r) == r by {
      CleanCartKeepsValidCart(r);
    }
    assert LinesSum(r) == 29.97 by {
      assert LineAmount(raised) == 9.99 * 3.0;
    }
    RoundCentsOfCents(29.97);
  }

  /** Setting product 1's quantity to 10 with 5 in stock is applied anyway;
      the entry then fails the stock check and drops out of the totals. */
  lemma UpdatePastStock()
    ensures var before := [NewLineItem(ProductOne(), Finite(1.0))];
      var r := WithQuantity(before, NumberId(1), Finite(10.0));
      && r[0].quantity == Finite(10.0)
      && ExceedsStock(Finite(10.0), Finite(5.0)) in ValidateCartItem(r[0]).errors
      && !IsValidItem(r[0])
      && CalculateTotals(r) == Totals(0, 0.0)
  {
    var before := [NewLineItem(ProductOne(), Finite(1.0))];
    var r := WithQuantity(before, NumberId(1), Finite(10.0));
    ValidateCartItemReportsEachFailure(r[0]);
    assert CleanCart(r) == [] + CleanCart([]);
    EmptyCartTotals();
  }

  /** Removing an id that is not in the cart changes nothing. */
  lemma RemoveAbsentIsNoOp(items: seq<LineItem>)
    requires NumberId(999) !in Ids(items)
    ensures Without(items, NumberId(999)) == items
    ensures CalculateTotals(Without(items, NumberId(999))) == CalculateTotals(items)
  {
    RemoveAbsentKeepsItems(items, NumberId(999));
  }

  /** An id listed twice is repeated once. */
  lemma RepeatedPair(x: ProductId)
    ensures RepeatedIds([x, x]) == [x]
  {
    assert [x, x][..1] == [x];
    assert [x][..0] == [];
    assert RepeatedIds([x]) == [];
  }

  /** Two valid entries sharing the id "abc" make a valid cart with a
      duplicate warning. */
  lemma DuplicateIdIsOnlyAWarning()
    ensures var item := LineItem(StringId("abc"), Some("Item"), Number(Finite(1.0)), Finite(1.0), None);
      var report := CartReportOf(List([item, item]));
      && report.isValid
      && report.warnings == [DuplicateItems([StringId("abc")])]
  {
    var item := LineItem(StringId("abc"), Some("Item"), Number(Finite(1.0)), Finite(1.0), None);
    var items := [item, item];
    assert IsValidItem(item);
    assert forall i :: 0 <= i < |items| ==> IsValidItem(items[i]);
    assert |ErrorReport(items)| == 0;
    assert Ids(items) == [item.id, item.id];
    RepeatedPair(item.id);
    assert Warnings(items) == [DuplicateItems([item.id])] + [];
  }
}
