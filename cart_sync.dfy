/**
 * Merging the local cart with the cart stored on the backend after login
 * (`syncCartWithBackend`). The fetch itself is not modelled: its outcome is
 * an input, either the backend's items or a failure message.
 */
module CartSync {
  import opened JsValues
  import opened CartValidation

  /** One entry of the backend cart. */
  datatype RemoteItem = RemoteItem(product: Product, quantity: JsNumber)

  /** The outcome of `cartAPI.get()`: the cart's `data.items` (None when that
      field is missing, which counts as no items), or the error's message. */
  datatype RemoteCart = Fetched(items: Option<seq<RemoteItem>>) | FetchFailed(message: string)

  datatype SyncResult = SyncResult(
    success: bool,
    syncedItems: seq<LineItem>,
    changes: nat,
    message: string,
    error: Option<string>)

  const UP_TO_DATE: string := "Cart is up to date"
  const FAILURE_MESSAGE: string := "Failed to sync with server, using local cart"

  function SyncedMessage(changes: nat): string {
    if changes > 0 then "Synced " + NatToString(changes) + " items with server" else UP_TO_DATE
  }

  /** `backendCart.data.items || []` */
  function RemoteItems(remote: RemoteCart): seq<RemoteItem>
    requires remote.Fetched?
  {
    if remote.items.Some? then remote.items.value else []
  }

  datatype Merged = Merged(items: seq<LineItem>, changes: nat)

  /** One backend item folded into the list: the first entry with the same id
      takes the backend quantity if that is larger; without such an entry the
      backend item is appended. */
  function MergeStep(synced: seq<LineItem>, remote: RemoteItem): (r: Merged)
    ensures |synced| <= |r.items| <= |synced| + 1
    ensures r.changes == (if r.items == synced then 0 else 1)
  {
    match FirstIndexOf(synced, remote.product.id)
    case Some(j) =>
      if Greater(remote.quantity, synced[j].quantity) then
        var raised := synced[j := synced[j].(quantity := remote.quantity)];
        assert raised[j] != synced[j];
        Merged(raised, 1)
      else Merged(synced, 0)
    case None =>
      Merged(synced + [NewLineItem(remote.product, remote.quantity)], 1)
  }

  /** The backend items folded into `synced` in order. */
  function Merge(synced: seq<LineItem>, remote: seq<RemoteItem>): (r: Merged)
    ensures |synced| <= |r.items| <= |synced| + |remote|
    decreases |remote|
  {
    if |remote| == 0 then Merged(synced, 0)
    else
      var step := MergeStep(synced, remote[0]);
      var rest := Merge(step.items, remote[1..]);
      Merged(rest.items, step.changes + rest.changes)
  }

  /** `syncCartWithBackend`: on a failed fetch the local items come back
      untouched with no changes; otherwise the backend items are merged in
      order and the message says whether anything changed. */
  method SyncCartWithBackend(localItems: seq<LineItem>, backend: RemoteCart) returns (result: SyncResult)
    ensures backend.FetchFailed? ==>
      result == SyncResult(false, localItems, 0, FAILURE_MESSAGE, Some(backend.message))
    ensures backend.Fetched? ==>
      && result.success
      && Merged(result.syncedItems, result.changes) == Merge(localItems, RemoteItems(backend))
      && result.message == SyncedMessage(result.changes)
      && result.error == None
  {
    if backend.FetchFailed? {
      return SyncResult(false, localItems, 0, FAILURE_MESSAGE, Some(backend.message));
    }
    var backendItems := RemoteItems(backend);
    ghost var final := Merge(localItems, backendItems);
    var syncedItems := localItems;
    var changes: nat := 0;
    for k := 0 to |backendItems|
      invariant Merge(syncedItems, backendItems[k..]).items == final.items
      invariant changes + Merge(syncedItems, backendItems[k..]).changes == final.changes
    {
      var backendItem := backendItems[k];
      assert backendItems[k..][0] == backendItem && backendItems[k..][1..] == backendItems[k + 1..];
      var localIndex := FirstIndexOf(syncedItems, backendItem.product.id);
      if localIndex.Some? {
        var j := localIndex.value;
        if Greater(backendItem.quantity, syncedItems[j].quantity) {
          syncedItems := syncedItems[j := syncedItems[j].(quantity := backendItem.quantity)];
          changes := changes + 1;
        }
      } else {
        syncedItems := syncedItems + [NewLineItem(backendItem.product, backendItem.quantity)];
        changes := changes + 1;
      }
    }
    result := SyncResult(true, syncedItems, changes, SyncedMessage(changes), None);
  }

  // ---------------------------------------------------------------------
  // What the merge does to each entry

  /** `i` is the first entry of `items` with its id. */
  predicate IsFirst(items: seq<LineItem>, i: nat)
    requires i < |items|
  {
    forall k :: 0 <= k < i ==> items[k].id != items[i].id
  }

  /** `a` is `b` or a larger number; NaN is only at least itself. */
  predicate AtLeast(a: JsNumber, b: JsNumber) {
    a == b || (a.Finite? && b.Finite? && a.v >= b.v)
  }

  /** The quantity an entry with `id` ends with: starting from `q`, every
      backend item with that id replaces it when larger. */
  function LargestQuantity(q: JsNumber, remote: seq<RemoteItem>, id: ProductId): JsNumber
    decreases |remote|
  {
    if |remote| == 0 then q
    else
      var next := if remote[0].product.id == id && Greater(remote[0].quantity, q) then remote[0].quantity else q;
      LargestQuantity(next, remote[1..], id)
  }

  /** `LargestQuantity` is the maximum: never below the start, never below a
      matching backend quantity when both are numbers, and always one of them. */
  lemma {:induction false} LargestQuantityIsMax(q: JsNumber, remote: seq<RemoteItem>, id: ProductId)
    decreases |remote|
    ensures AtLeast(LargestQuantity(q, remote, id), q)
    ensures forall k :: (0 <= k < |remote| && remote[k].product.id == id
      && q.Finite? && remote[k].quantity.Finite?) ==>
        LargestQuantity(q, remote, id).Finite? && LargestQuantity(q, remote, id).v >= remote[k].quantity.v
    ensures LargestQuantity(q, remote, id) == q
      || exists k :: 0 <= k < |remote| && remote[k].product.id == id
           && LargestQuantity(q, remote, id) == remote[k].quantity
  {
    if |remote| > 0 {
      var next := if remote[0].product.id == id && Greater(remote[0].quantity, q) then remote[0].quantity else q;
      LargestQuantityIsMax(next, remote[1..], id);
      var r := LargestQuantity(q, remote, id);
      assert r == LargestQuantity(next, remote[1..], id);
      forall k | 0 <= k < |remote| && remote[k].product.id == id && q.Finite? && remote[k].quantity.Finite?
        ensures r.Finite? && r.v >= remote[k].quantity.v
      {
        if k > 0 {
          assert remote[1..][k - 1] == remote[k];
        }
      }
      if r != q && r != next {
        var k :| 0 <= k < |remote[1..]| && remote[1..][k].product.id == id && r == remote[1..][k].quantity;
        assert remote[k + 1] == remote[1..][k];
      }
    }
  }

  /** With no matching backend item the quantity stays. */
  lemma {:induction false} LargestQuantityWithoutMatch(q: JsNumber, remote: seq<RemoteItem>, id: ProductId)
    requires forall k :: 0 <= k < |remote| ==> remote[k].product.id != id
    ensures LargestQuantity(q, remote, id) == q
    decreases |remote|
  {
    if |remote| > 0 {
      LargestQuantityWithoutMatch(q, remote[1..], id);
    }
  }

  /** One step keeps every existing entry in place with its id, only ever
      raises a quantity, and touches only the first entry with the backend
      item's id. */
  lemma StepKeepsEntries(synced: seq<LineItem>, remote: RemoteItem)
    ensures var s := MergeStep(synced, remote).items;
      && |synced| <= |s| <= |synced| + 1
      && (forall i :: 0 <= i < |synced| ==> s[i] == synced[i].(quantity := s[i].quantity))
      && (forall i :: 0 <= i < |synced| ==> AtLeast(s[i].quantity, synced[i].quantity))
      && (forall i :: 0 <= i < |synced| ==>
           s[i].quantity ==
             if IsFirst(synced, i) && synced[i].id == remote.product.id
                && Greater(remote.quantity, synced[i].quantity)
             then remote.quantity else synced[i].quantity)
      && (|s| == |synced| + 1 ==>
           s[|synced|] == NewLineItem(remote.product, remote.quantity)
           && forall i :: 0 <= i < |synced| ==> synced[i].id != remote.product.id)
      && remote.product.id in Ids(s)
  {
  }

  /** The merge keeps every local entry at its place with everything but its
      quantity unchanged; the first entry of each id ends with the largest of
      its own and the matching backend quantities, and a later entry with an
      already seen id is left alone. */
  lemma {:induction false} MergeKeepsLocalEntries(synced: seq<LineItem>, remote: seq<RemoteItem>)
    ensures var m := Merge(synced, remote).items;
      && |synced| <= |m|
      && (forall i :: 0 <= i < |synced| ==> m[i] == synced[i].(quantity := m[i].quantity))
      && (forall i :: 0 <= i < |synced| && IsFirst(synced, i) ==>
           m[i].quantity == LargestQuantity(synced[i].quantity, remote, synced[i].id))
      && (forall i :: 0 <= i < |synced| && !IsFirst(synced, i) ==> m[i] == synced[i])
    decreases |remote|
  {
    if |remote| > 0 {
      var s := MergeStep(synced, remote[0]).items;
      StepKeepsEntries(synced, remote[0]);
      MergeKeepsLocalEntries(s, remote[1..]);
      var m := Merge(synced, remote).items;
      assert m == Merge(s, remote[1..]).items;
      forall i | 0 <= i < |synced|
        ensures IsFirst(s, i) <==> IsFirst(synced, i)
      {
        assert forall k :: 0 <= k <= i ==> s[k].id == synced[k].id;
      }
      forall i | 0 <= i < |synced| && IsFirst(synced, i)
        ensures m[i].quantity == LargestQuantity(synced[i].quantity, remote, synced[i].id)
      {
        assert s[i].id == synced[i].id;
      }
    }
  }

  /** Every backend item whose id is already in the cart leaves the first such
      entry with at least its quantity, and that entry's own quantity never
      drops: with numbers on both sides, the entry ends with the larger one. */
  lemma MergeTakesLargerQuantity(local: seq<LineItem>, remote: seq<RemoteItem>)
    ensures var m := Merge(local, remote).items;
      && (forall i :: 0 <= i < |local| ==> AtLeast(m[i].quantity, local[i].quantity))
      && (forall i, k :: (0 <= i < |local| && 0 <= k < |remote| && IsFirst(local, i)
           && remote[k].product.id == local[i].id
           && local[i].quantity.Finite? && remote[k].quantity.Finite?) ==>
             m[i].quantity.Finite? && m[i].quantity.v >= remote[k].quantity.v)
  {
    MergeKeepsLocalEntries(local, remote);
    var m := Merge(local, remote).items;
    forall i | 0 <= i < |local| ensures AtLeast(m[i].quantity, local[i].quantity) {
      LargestQuantityIsMax(local[i].quantity, remote, local[i].id);
    }
    forall i, k | 0 <= i < |local| && 0 <= k < |remote| && IsFirst(local, i)
      && remote[k].product.id == local[i].id
      && local[i].quantity.Finite? && remote[k].quantity.Finite?
      ensures m[i].quantity.Finite? && m[i].quantity.v >= remote[k].quantity.v
    {
      LargestQuantityIsMax(local[i].quantity, remote, local[i].id);
    }
  }

  /** The product ids of the backend items, in order. */
  function RemoteIds(remote: seq<RemoteItem>): (r: seq<ProductId>)
    ensures |r| == |remote|
    ensures forall k :: 0 <= k < |remote| ==> r[k] == remote[k].product.id
  {
    seq(|remote|, k requires 0 <= k < |remote| => remote[k].product.id)
  }

  /** An entry whose id the backend does not know is returned unchanged. */
  lemma MergeKeepsLocalOnlyItems(local: seq<LineItem>, remote: seq<RemoteItem>)
    ensures forall i :: 0 <= i < |local| && local[i].id !in RemoteIds(remote) ==>
      Merge(local, remote).items[i] == local[i]
  {
    MergeKeepsLocalEntries(local, remote);
    forall i | 0 <= i < |local| && local[i].id !in RemoteIds(remote)
      ensures Merge(local, remote).items[i] == local[i]
    {
      forall k | 0 <= k < |remote| ensures remote[k].product.id != local[i].id {
        assert RemoteIds(remote)[k] == remote[k].product.id;
      }
      LargestQuantityWithoutMatch(local[i].quantity, remote, local[i].id);
    }
  }

  /** `k` is the first backend item with its product id. */
  predicate FirstInRemote(remote: seq<RemoteItem>, k: nat)
    requires k < |remote|
  {
    forall k' :: 0 <= k' < k ==> remote[k'].product.id != remote[k].product.id
  }

  /** The entry a backend item appends: its product with its quantity, raised
      by every later backend item with the same id that has a larger one. */
  function AppendedEntry(remote: seq<RemoteItem>, k: nat): (item: LineItem)
    requires k < |remote|
    ensures item.id == remote[k].product.id
  {
    NewLineItem(remote[k].product, LargestQuantity(remote[k].quantity, remote[k + 1..], remote[k].product.id))
  }

  /** Every appended entry comes from the first backend item with an id that
      was not in the cart: that item's product, with its quantity raised by
      the later backend items with the same id. */
  lemma {:induction false} MergeAppendsRemoteOnly(synced: seq<LineItem>, remote: seq<RemoteItem>)
    ensures var m := Merge(synced, remote).items;
      forall j :: |synced| <= j < |m| ==>
        m[j].id !in Ids(synced)
        && exists k :: 0 <= k < |remote| && FirstInRemote(remote, k) && m[j] == AppendedEntry(remote, k)
    decreases |remote|
  {
    if |remote| > 0 {
      var s := MergeStep(synced, remote[0]).items;
      var rest := remote[1..];
      StepKeepsEntries(synced, remote[0]);
      MergeAppendsRemoteOnly(s, rest);
      MergeKeepsLocalEntries(s, rest);
      var m := Merge(synced, remote).items;
      assert m == Merge(s, rest).items;
      assert forall i :: 0 <= i < |synced| ==> Ids(s)[i] == Ids(synced)[i];
      forall j | |synced| <= j < |m|
        ensures m[j].id !in Ids(synced)
        ensures exists k :: 0 <= k < |remote| && FirstInRemote(remote, k) && m[j] == AppendedEntry(remote, k)
      {
        if j < |s| {
          AppendedFirst(synced, remote, s, m);
        } else {
          assert |s| <= j < |Merge(s, rest).items|;
          var k :| 0 <= k < |rest| && FirstInRemote(rest, k) && m[j] == AppendedEntry(rest, k);
          AppendedLater(remote, s, k);
          assert m[j] == AppendedEntry(remote, k + 1);
        }
      }
    }
  }

  /** The entry appended by the first backend item, once the rest is merged in. */
  lemma AppendedFirst(synced: seq<LineItem>, remote: seq<RemoteItem>, s: seq<LineItem>, m: seq<LineItem>)
    requires |remote| > 0
    requires s == MergeStep(synced, remote[0]).items && |s| == |synced| + 1
    requires m == Merge(s, remote[1..]).items
    ensures m[|synced|].id !in Ids(synced)
    ensures FirstInRemote(remote, 0) && m[|synced|] == AppendedEntry(remote, 0)
  {
    StepKeepsEntries(synced, remote[0]);
    MergeKeepsLocalEntries(s, remote[1..]);
    var j := |synced|;
    assert IsFirst(s, j);
    assert m[j] == s[j].(quantity := m[j].quantity);
  }

  /** A backend item that is first with its id among the rest, and whose id is
      not in the list after the first step, is first in the whole list. */
  lemma AppendedLater(remote: seq<RemoteItem>, s: seq<LineItem>, k: nat)
    requires |remote| > 0 && k < |remote| - 1
    requires remote[0].product.id in Ids(s)
    requires FirstInRemote(remote[1..], k) && remote[k + 1].product.id !in Ids(s)
    ensures FirstInRemote(remote, k + 1)
    ensures AppendedEntry(remote[1..], k) == AppendedEntry(remote, k + 1)
  {
    assert remote[1..][k] == remote[k + 1];
    assert remote[1..][k + 1..] == remote[k + 2..];
    forall k' | 0 <= k' < k + 1 ensures remote[k'].product.id != remote[k + 1].product.id {
      if k' > 0 {
        assert remote[1..][k' - 1] == remote[k'];
      }
    }
  }

  /** The appended entries follow the order in which their ids first occur
      among the backend items. */
  lemma {:induction false} MergeAppendsInRemoteOrder(synced: seq<LineItem>, remote: seq<RemoteItem>)
    ensures var m := Merge(synced, remote).items;
      forall j1, j2, k1, k2 ::
        (|synced| <= j1 < j2 < |m| && 0 <= k1 < |remote| && 0 <= k2 < |remote|
         && FirstInRemote(remote, k1) && FirstInRemote(remote, k2)
         && m[j1].id == remote[k1].product.id && m[j2].id == remote[k2].product.id) ==> k1 < k2
    decreases |remote|
  {
    if |remote| > 0 {
      var s := MergeStep(synced, remote[0]).items;
      var rest := remote[1..];
      StepKeepsEntries(synced, remote[0]);
      MergeAppendsInRemoteOrder(s, rest);
      MergeAppendsRemoteOnly(s, rest);
      MergeKeepsLocalEntries(s, rest);
      var m := Merge(synced, remote).items;
      assert m == Merge(s, rest).items;
      forall j1, j2, k1, k2 |
        |synced| <= j1 < j2 < |m| && 0 <= k1 < |remote| && 0 <= k2 < |remote|
        && FirstInRemote(remote, k1) && FirstInRemote(remote, k2)
        && m[j1].id == remote[k1].product.id && m[j2].id == remote[k2].product.id
        ensures k1 < k2
      {
        assert |s| <= j2;
        assert m[j2].id !in Ids(s);
        assert remote[0].product.id in Ids(s);
        if j1 < |s| {
          assert m[j1].id == s[j1].id == remote[0].product.id;
          assert k1 == 0;
        } else {
          assert m[j1].id !in Ids(s);
          LaterFirstInRemote(remote, k1);
          LaterFirstInRemote(remote, k2);
        }
      }
    }
  }

  /** A first occurrence past the head, with another id than the head's, is a
      first occurrence in the tail. */
  lemma LaterFirstInRemote(remote: seq<RemoteItem>, k: nat)
    requires k < |remote| && FirstInRemote(remote, k) && remote[k].product.id != remote[0].product.id
    ensures k > 0 && FirstInRemote(remote[1..], k - 1)
  {
    forall k' | 0 <= k' < k - 1 ensures remote[1..][k'].product.id != remote[1..][k - 1].product.id {
      assert remote[1..][k'] == remote[k' + 1];
    }
  }

  /** No id is appended twice. */
  lemma MergeAppendsDistinctIds(synced: seq<LineItem>, remote: seq<RemoteItem>)
    ensures var m := Merge(synced, remote).items;
      forall j1, j2 :: |synced| <= j1 < j2 < |m| ==> m[j1].id != m[j2].id
  {
    MergeAppendsRemoteOnly(synced, remote);
    MergeAppendsInRemoteOrder(synced, remote);
    var m := Merge(synced, remote).items;
    forall j1, j2 | |synced| <= j1 < j2 < |m| ensures m[j1].id != m[j2].id {
      var k1 :| 0 <= k1 < |remote| && FirstInRemote(remote, k1) && m[j1] == AppendedEntry(remote, k1);
      var k2 :| 0 <= k2 < |remote| && FirstInRemote(remote, k2) && m[j2] == AppendedEntry(remote, k2);
      assert k1 < k2;
    }
  }

  /** Every backend id ends up in the merged cart. */
  lemma {:induction false} MergeIncludesRemoteIds(synced: seq<LineItem>, remote: seq<RemoteItem>)
    ensures forall k :: 0 <= k < |remote| ==> remote[k].product.id in Ids(Merge(synced, remote).items)
    decreases |remote|
  {
    if |remote| > 0 {
      var s := MergeStep(synced, remote[0]).items;
      StepKeepsEntries(synced, remote[0]);
      MergeIncludesRemoteIds(s, remote[1..]);
      MergeKeepsLocalEntries(s, remote[1..]);
      var m := Merge(synced, remote).items;
      assert m == Merge(s, remote[1..]).items;
      forall k | 0 <= k < |remote| ensures remote[k].product.id in Ids(m) {
        if k == 0 {
          var i :| 0 <= i < |s| && Ids(s)[i] == remote[0].product.id;
          assert Ids(m)[i] == m[i].id == s[i].id;
        } else {
          assert remote[1..][k - 1] == remote[k];
        }
      }
    }
  }

  /** How many backend items, folded in one after another, change the list
      they are folded into (by raising a quantity or appending an entry). */
  function ChangingSteps(synced: seq<LineItem>, remote: seq<RemoteItem>): nat
    decreases |remote|
  {
    if |remote| == 0 then 0
    else
      var next := MergeStep(synced, remote[0]).items;
      (if next == synced then 0 else 1) + ChangingSteps(next, remote[1..])
  }

  /** `changes` counts exactly the backend items that changed the list, so it
      is zero exactly when the merge leaves the cart as it was, never exceeds
      the number of backend items, and counts every appended entry. */
  lemma {:induction false} MergeCountsChanges(synced: seq<LineItem>, remote: seq<RemoteItem>)
    ensures Merge(synced, remote).changes == ChangingSteps(synced, remote)
    ensures Merge(synced, remote).changes <= |remote|
    ensures |Merge(synced, remote).items| - |synced| <= Merge(synced, remote).changes
    ensures Merge(synced, remote).changes == 0 <==> Merge(synced, remote).items == synced
    decreases |remote|
  {
    if |remote| > 0 {
      var step := MergeStep(synced, remote[0]);
      var s := step.items;
      StepKeepsEntries(synced, remote[0]);
      MergeCountsChanges(s, remote[1..]);
      MergeTakesLargerQuantity(s, remote[1..]);
      var m := Merge(synced, remote);
      assert m.changes == step.changes + Merge(s, remote[1..]).changes;
      assert m.items == Merge(s, remote[1..]).items;
      if step.changes == 0 {
        assert s == synced;
      } else if |s| > |synced| {
        MergeKeepsLocalEntries(s, remote[1..]);
        assert |m.items| >= |s| > |synced|;
      } else {
        var j := FirstIndexOf(synced, remote[0].product.id).value;
        assert Greater(s[j].quantity, synced[j].quantity);
        assert AtLeast(m.items[j].quantity, s[j].quantity);
        assert m.items[j] != synced[j];
      }
    }
  }
}
