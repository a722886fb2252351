/**
 * An item term store writer that forwards each call to one of several
 * stores, chosen by the numeric part of the item id: the table maps upper
 * bounds to stores, and an id goes to the store with the smallest bound at
 * or above it.
 */
module ByIdDispatching {
  import opened Basics
  import opened Collections
  import opened PhpArrays
  import opened Terms

  /** The stores are told apart by number; the example has stores 1 to 4. */
  type StoreNumber = nat

  /** The numeric part of an item id (`Q123` has 123). */
  type ItemNumber = nat

  /** Upper bound => store, in the order the table was written. */
  type BoundTable = Assoc<int, StoreNumber>

  /** The largest numeric id an `Int32EntityId` can have. */
  const Int32Max: int := 0x7FFF_FFFF

  /** The position of the smallest bound at or above `id`, if any bound is. */
  function CoveringIndex(table: BoundTable, id: ItemNumber): (r: Option<nat>)
    ensures r.None? <==> forall j :: 0 <= j < |table| ==> table[j].0 < id
    ensures r.Some? ==> r.value < |table| && id <= table[r.value].0
    ensures r.Some? ==> forall j :: 0 <= j < |table| && id <= table[j].0 ==> table[r.value].0 <= table[j].0
  {
    if table == [] then None
    else
      var n := |table| - 1;
      var r := CoveringIndex(table[..n], id);
      assert forall j :: 0 <= j < n ==> table[..n][j] == table[j];
      if table[n].0 < id then r
      else if r.None? || table[n].0 < table[r.value].0 then Some(n)
      else r
  }

  /** The store an id is routed to, or None when every bound is below the id. */
  function SelectStore(table: BoundTable, id: ItemNumber): (r: Option<StoreNumber>)
    requires NoDuplicates(KeysOf(table))
    ensures r.None? <==> forall j :: 0 <= j < |table| ==> table[j].0 < id
    ensures r.Some? ==> exists j :: (0 <= j < |table| && table[j].1 == r.value && id <= table[j].0 &&
              forall k :: 0 <= k < |table| && id <= table[k].0 ==> table[j].0 <= table[k].0)
  {
    match CoveringIndex(table, id)
    case None => None
    case Some(i) => Some(table[i].1)
  }

  /** Two rows with the same bound are the same row of a table with distinct bounds. */
  lemma SameBoundSameRow(table: BoundTable, i: nat, j: nat)
    requires NoDuplicates(KeysOf(table)) && i < |table| && j < |table| && table[i].0 == table[j].0
    ensures i == j
  {
    assert KeysOf(table)[i] == table[i].0 && KeysOf(table)[j] == table[j].0;
  }

  /** The row with the smallest bound at or above the id is the one routed to. */
  lemma SelectStoreIs(table: BoundTable, id: ItemNumber, j: nat)
    requires NoDuplicates(KeysOf(table)) && j < |table| && id <= table[j].0
    requires forall k :: 0 <= k < |table| && id <= table[k].0 ==> table[j].0 <= table[k].0
    ensures SelectStore(table, id) == Some(table[j].1)
  {
    var i := CoveringIndex(table, id).value;
    SameBoundSameRow(table, i, j);
  }

  /**
   * Routing ignores the order in which the table was written: two tables
   * with the same rows and distinct bounds send every id to the same store.
   */
  lemma {:induction false} SelectStoreOrderIndependent(a: BoundTable, b: BoundTable, id: ItemNumber)
    requires NoDuplicates(KeysOf(a)) && NoDuplicates(KeysOf(b))
    requires forall row :: row in a <==> row in b
    ensures SelectStore(a, id) == SelectStore(b, id)
  {
    var ra := CoveringIndex(a, id);
    var rb := CoveringIndex(b, id);
    if ra.Some? && rb.None? {
      assert a[ra.value] in b;
    } else if ra.None? && rb.Some? {
      assert b[rb.value] in a;
    } else if ra.Some? && rb.Some? {
      var i, j := ra.value, rb.value;
      assert a[i] in b;
      assert b[j] in a;
      var i' :| 0 <= i' < |b| && b[i'] == a[i];
      var j' :| 0 <= j' < |a| && a[j'] == b[j];
      assert a[i].0 == b[j].0;
      SameBoundSameRow(b, i', j);
    }
  }

  datatype Operation = StoreTerms(fingerprint: Fingerprint) | DeleteTerms

  /** A call a store received: the operation and the item it was for. */
  datatype Call = Call(store: StoreNumber, operation: Operation, itemId: ItemNumber)

  datatype DispatchError = NoStoreForId(itemId: ItemNumber)

  /** The calls the stores receive when `operation` on `id` is dispatched. */
  function Forwarded(table: BoundTable, id: ItemNumber, operation: Operation): (calls: seq<Call>)
    requires NoDuplicates(KeysOf(table))
    ensures |calls| <= 1
    ensures calls == [] <==> SelectStore(table, id).None?
    ensures forall c :: c in calls ==> c.itemId == id && c.operation == operation && Some(c.store) == SelectStore(table, id)
  {
    match SelectStore(table, id)
    case None => []
    case Some(store) => [Call(store, operation, id)]
  }

  /** An id routed to a store is forwarded there as exactly one call. */
  lemma ForwardedTo(table: BoundTable, id: ItemNumber, operation: Operation, store: StoreNumber)
    requires NoDuplicates(KeysOf(table)) && SelectStore(table, id) == Some(store)
    ensures Forwarded(table, id, operation) == [Call(store, operation, id)]
  {
  }

  /** `storeTerms` and `deleteTerms` are routed alike. */
  lemma SameRouting(table: BoundTable, id: ItemNumber, fingerprint: Fingerprint)
    requires NoDuplicates(KeysOf(table))
    ensures |Forwarded(table, id, StoreTerms(fingerprint))| == |Forwarded(table, id, DeleteTerms)|
    ensures forall k :: 0 <= k < |Forwarded(table, id, DeleteTerms)| ==>
              Forwarded(table, id, StoreTerms(fingerprint))[k].store == Forwarded(table, id, DeleteTerms)[k].store
  {
  }

  /** The table written as [1000 => store1, 200000 => store3, 100000 => store2, MAX => store4]. */
  const ExampleTable: BoundTable := [(1000, 1), (200000, 3), (100000, 2), (Int32Max, 4)]

  /** The same rows sorted by bound. */
  const SortedExampleTable: BoundTable := [(1000, 1), (100000, 2), (200000, 3), (Int32Max, 4)]

  lemma ExampleTableDistinct()
    ensures NoDuplicates(KeysOf(ExampleTable)) && NoDuplicates(KeysOf(SortedExampleTable))
  {
    assert KeysOf(ExampleTable) == [1000, 200000, 100000, Int32Max];
    assert KeysOf(SortedExampleTable) == [1000, 100000, 200000, Int32Max];
  }

  /**
   * The routing the example table gives: Q123 to the 1000 store, Q12345 to
   * the 100000 store, Q200000 to the 200000 store (bounds are inclusive) and
   * Q1234567 to the MAX store; the sorted table routes the same way.
   */
  lemma ExampleRouting()
    ensures NoDuplicates(KeysOf(ExampleTable))
    ensures SelectStore(ExampleTable, 123) == Some(1)
    ensures SelectStore(ExampleTable, 12345) == Some(2)
    ensures SelectStore(ExampleTable, 200000) == Some(3)
    ensures SelectStore(ExampleTable, 1234567) == Some(4)
  {
    ExampleTableDistinct();
    SelectStoreIs(ExampleTable, 123, 0);
    SelectStoreIs(ExampleTable, 12345, 2);
    SelectStoreIs(ExampleTable, 200000, 1);
    SelectStoreIs(ExampleTable, 1234567, 3);
  }

  /** The example table routes as if its bounds were written in ascending order. */
  lemma ExampleTableAsSorted()
    ensures NoDuplicates(KeysOf(ExampleTable)) && NoDuplicates(KeysOf(SortedExampleTable))
    ensures forall id: ItemNumber :: SelectStore(ExampleTable, id) == SelectStore(SortedExampleTable, id)
  {
    ExampleTableDistinct();
    forall id: ItemNumber
      ensures SelectStore(ExampleTable, id) == SelectStore(SortedExampleTable, id)
    {
      SelectStoreOrderIndependent(ExampleTable, SortedExampleTable, id);
    }
  }

  /** The dispatching writer; `calls` is what the underlying stores have received. */
  class ByIdDispatchingItemTermStoreWriter {
    const table: BoundTable
    var calls: seq<Call>

    constructor (storesByMaxId: BoundTable)
      requires NoDuplicates(KeysOf(storesByMaxId))
      ensures table == storesByMaxId && calls == []
    {
      table := storesByMaxId;
      calls := [];
    }

    /** Forwards one operation to the store selected for the id, unchanged. */
    method Dispatch(id: ItemNumber, operation: Operation) returns (outcome: Outcome<DispatchError>)
      requires NoDuplicates(KeysOf(table))
      modifies this
      ensures outcome.Fail? <==> SelectStore(table, id).None?
      ensures outcome.Fail? ==> outcome.error == NoStoreForId(id)
      ensures calls == old(calls) + Forwarded(table, id, operation)
    {
      var store := SelectStore(table, id);
      if store.None? {
        return Fail(NoStoreForId(id));
      }
      calls := calls + [Call(store.value, operation, id)];
      outcome := Pass;
    }

    /** `storeTerms`: forwarded with the same id and fingerprint. */
    method StoreTermsFor(id: ItemNumber, fingerprint: Fingerprint) returns (outcome: Outcome<DispatchError>)
      requires NoDuplicates(KeysOf(table))
      modifies this
      ensures outcome.Fail? <==> SelectStore(table, id).None?
      ensures calls == old(calls) + Forwarded(table, id, StoreTerms(fingerprint))
    {
      outcome := Dispatch(id, StoreTerms(fingerprint));
    }

    /** `deleteTerms`: forwarded with the same id. */
    method DeleteTermsFor(id: ItemNumber) returns (outcome: Outcome<DispatchError>)
      requires NoDuplicates(KeysOf(table))
      modifies this
      ensures outcome.Fail? <==> SelectStore(table, id).None?
      ensures calls == old(calls) + Forwarded(table, id, DeleteTerms)
    {
      outcome := Dispatch(id, DeleteTerms);
    }
  }

  /**
   * The four deletions of the example: each store receives exactly one
   * call, for its own id.
   */
  method ExampleDeletions() returns (writer: ByIdDispatchingItemTermStoreWriter)
    ensures fresh(writer)
    ensures writer.calls == [Call(1, DeleteTerms, 123), Call(2, DeleteTerms, 12345),
                             Call(3, DeleteTerms, 200000), Call(4, DeleteTerms, 1234567)]
  {
    ExampleRouting();
    writer := new ByIdDispatchingItemTermStoreWriter(ExampleTable);
    ForwardedTo(ExampleTable, 123, DeleteTerms, 1);
    ForwardedTo(ExampleTable, 12345, DeleteTerms, 2);
    ForwardedTo(ExampleTable, 200000, DeleteTerms, 3);
    ForwardedTo(ExampleTable, 1234567, DeleteTerms, 4);
    var outcome := writer.DeleteTermsFor(123);
    assert writer.calls == [Call(1, DeleteTerms, 123)];
    outcome := writer.DeleteTermsFor(12345);
    assert writer.calls == [Call(1, DeleteTerms, 123), Call(2, DeleteTerms, 12345)];
    outcome := writer.DeleteTermsFor(200000);
    assert writer.calls == [Call(1, DeleteTerms, 123), Call(2, DeleteTerms, 12345),
                            Call(3, DeleteTerms, 200000)];
    outcome := writer.DeleteTermsFor(1234567);
  }
}
