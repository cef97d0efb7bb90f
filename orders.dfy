// Order.kt: the three queries an order adds to its ledger.
module Orders {
  import opened Results
  import opened Products
  import opened Ledger

  /** The two filters Order.kt applies to its entries. */
  datatype Criterion = HasAvailable | HasReserved

  predicate Holds(c: Criterion, e: StoreProduct)
  {
    match c
    case HasAvailable => e.available > 0
    case HasReserved => e.reserved > 0
  }

  /** Positions, from `from` on, of the entries meeting `c`, in stored order. */
  function IndicesFrom(items: seq<StoreProduct>, c: Criterion, from: nat): (r: seq<nat>)
    requires from <= |items|
    ensures forall k :: 0 <= k < |r| ==> from <= r[k] < |items| && Holds(c, items[r[k]])
    ensures forall k, l :: 0 <= k < l < |r| ==> r[k] < r[l]
    ensures forall i :: from <= i < |items| && Holds(c, items[i]) ==> i in r
    decreases |items| - from
  {
    if from == |items| then []
    else if Holds(c, items[from]) then [from] + IndicesFrom(items, c, from + 1)
    else IndicesFrom(items, c, from + 1)
  }

  /** Positions of the entries meeting `c`, in stored order. */
  function Indices(items: seq<StoreProduct>, c: Criterion): (r: seq<nat>)
    ensures forall k :: 0 <= k < |r| ==> r[k] < |items| && Holds(c, items[r[k]])
    ensures forall k, l :: 0 <= k < l < |r| ==> r[k] < r[l]
    ensures forall i :: 0 <= i < |items| && Holds(c, items[i]) ==> i in r
  {
    IndicesFrom(items, c, 0)
  }

  /** The entries at the given positions. */
  function At(items: seq<StoreProduct>, idx: seq<nat>): (r: seq<StoreProduct>)
    requires forall k :: 0 <= k < |idx| ==> idx[k] < |items|
    ensures |r| == |idx| && forall k :: 0 <= k < |idx| ==> r[k] == items[idx[k]]
  {
    seq(|idx|, k requires 0 <= k < |idx| => items[idx[k]])
  }

  /** Order.getOutstandingItems: the entries with available > 0, in stored order. */
  function OutstandingItems(items: seq<StoreProduct>): seq<StoreProduct>
  {
    At(items, Indices(items, HasAvailable))
  }

  /** Order.getReservedItems: the entries with reserved > 0, in stored order. */
  function ReservedItems(items: seq<StoreProduct>): seq<StoreProduct>
  {
    At(items, Indices(items, HasReserved))
  }

  /** Order.isCompleted: no entry has available > 0 or reserved > 0. */
  predicate IsCompleted(items: seq<StoreProduct>)
  {
    forall j :: 0 <= j < |items| ==> !(items[j].available > 0 || items[j].reserved > 0)
  }

  /** A position is listed exactly when its entry meets the criterion. */
  lemma IndicesExactly(items: seq<StoreProduct>, c: Criterion, i: nat)
    requires i < |items|
    ensures i in Indices(items, c) <==> Holds(c, items[i])
  {
    var r := Indices(items, c);
    if i in r {
      var k :| 0 <= k < |r| && r[k] == i;
    }
  }

  /** When no entry meets the criterion, no position is listed. */
  lemma {:induction false} NoneListed(items: seq<StoreProduct>, c: Criterion, from: nat)
    requires from <= |items|
    requires forall j :: from <= j < |items| ==> !Holds(c, items[j])
    ensures IndicesFrom(items, c, from) == []
    decreases |items| - from
  {
    if from < |items| {
      NoneListed(items, c, from + 1);
    }
  }

  /** An entry is outstanding exactly when it is in the ledger with available > 0. */
  lemma OutstandingMembers(items: seq<StoreProduct>, e: StoreProduct)
    ensures e in OutstandingItems(items) <==> e in items && e.available > 0
  {
    var idx := Indices(items, HasAvailable);
    var r := OutstandingItems(items);
    if e in items && e.available > 0 {
      var i :| 0 <= i < |items| && items[i] == e;
      var k :| 0 <= k < |idx| && idx[k] == i;
      assert r[k] == e;
    }
  }

  /** With non-negative counts, completed means every count is zero. */
  lemma CompletedMeansZero(items: seq<StoreProduct>)
    requires NonNegative(items)
    ensures IsCompleted(items) <==>
      forall j :: 0 <= j < |items| ==> items[j].available == 0 && items[j].reserved == 0
  {
  }

  /** A completed order has nothing outstanding and nothing reserved; with
      non-negative counts the converse holds too. */
  lemma CompletedIffNothingLeft(items: seq<StoreProduct>)
    ensures IsCompleted(items) <==> OutstandingItems(items) == [] && ReservedItems(items) == []
  {
    var a := Indices(items, HasAvailable);
    var b := Indices(items, HasReserved);
    if IsCompleted(items) {
      NoneListed(items, HasAvailable, 0);
      NoneListed(items, HasReserved, 0);
    } else {
      var j :| 0 <= j < |items| && (items[j].available > 0 || items[j].reserved > 0);
      if items[j].available > 0 {
        IndicesExactly(items, HasAvailable, j);
      } else {
        IndicesExactly(items, HasReserved, j);
      }
    }
  }

  /** Once completed, an order stays completed under reserve and checkout with a
      non-negative quantity: a positive quantity fails, zero changes nothing. */
  lemma CompletedStaysCompleted(items: seq<StoreProduct>, p: Product, q: int)
    requires IsCompleted(items) && NonNegative(items) && q >= 0
    ensures q > 0 ==> LedgerReserve(items, p, q).Err? && LedgerCheckout(items, p, q).Err?
    ensures q == 0 && LedgerReserve(items, p, q).Ok? ==> LedgerReserve(items, p, q).value == items
    ensures q == 0 && LedgerCheckout(items, p, q).Ok? ==> LedgerCheckout(items, p, q).value == items
  {
    var f := FindProduct(items, p.id);
    if q == 0 && f.Some? {
      assert Adjust(items, f.value, 0, 0) == items;
    }
  }

  /** Index of the first entry with available > 0, the head of getOutstandingItems. */
  function FirstOutstanding(items: seq<StoreProduct>): (r: Option<nat>)
    ensures r.Some? ==> r.value < |items| && items[r.value].available > 0
    ensures r.Some? ==> forall j :: 0 <= j < r.value ==> items[j].available <= 0
    ensures r.None? <==> forall j :: 0 <= j < |items| ==> items[j].available <= 0
  {
    if items == [] then None
    else if items[0].available > 0 then Some(0)
    else
      match FirstOutstanding(items[1..])
      case None => None
      case Some(k) => Some(k + 1)
  }

  /** Entries that fail the criterion before `to` are skipped. */
  lemma {:induction false} IndicesSkip(items: seq<StoreProduct>, c: Criterion, from: nat, to: nat)
    requires from <= to <= |items|
    requires forall j :: from <= j < to ==> !Holds(c, items[j])
    ensures IndicesFrom(items, c, from) == IndicesFrom(items, c, to)
    decreases |items| - from
  {
    if from < to {
      IndicesSkip(items, c, from + 1, to);
    }
  }

  /** getOutstandingItems is empty exactly when there is no first outstanding entry,
      and otherwise starts with that entry. */
  lemma FirstOutstandingIsHead(items: seq<StoreProduct>)
    ensures FirstOutstanding(items).None? <==> OutstandingItems(items) == []
    ensures FirstOutstanding(items).Some? ==>
      OutstandingItems(items) != [] && OutstandingItems(items)[0] == items[FirstOutstanding(items).value]
  {
    match FirstOutstanding(items)
    case None =>
      NoneListed(items, HasAvailable, 0);
    case Some(k) =>
      IndicesSkip(items, HasAvailable, 0, k);
  }
}
