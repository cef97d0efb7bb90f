// Map.kt, the Store half: the per-product (available, reserved) ledger that
// warehouses and orders share, with the reserve / checkout protocol.
module Ledger {
  import opened Results
  import opened Products
  import opened Geometry

  /** Store.getProduct's search: the index of the first entry for product `id`. */
  function FindProduct(items: seq<StoreProduct>, id: int): (r: Option<nat>)
    ensures r.Some? ==> r.value < |items| && items[r.value].product.id == id
    ensures r.Some? ==> forall j :: 0 <= j < r.value ==> items[j].product.id != id
    ensures r.None? <==> forall j :: 0 <= j < |items| ==> items[j].product.id != id
  {
    if items == [] then None
    else if items[0].product.id == id then Some(0)
    else
      match FindProduct(items[1..], id)
      case None => None
      case Some(k) => Some(k + 1)
  }

  /** Entry `k` with `dAvailable` added to `available` and `dReserved` to `reserved`. */
  function Adjust(items: seq<StoreProduct>, k: nat, dAvailable: int, dReserved: int): seq<StoreProduct>
    requires k < |items|
  {
    items[k := items[k].(available := items[k].available + dAvailable,
                         reserved := items[k].reserved + dReserved)]
  }

  /** Store.reserve: moves `q` units of `p` from available to reserved; fails,
      changing nothing, when the product is unknown or fewer than `q` are available. */
  function LedgerReserve(items: seq<StoreProduct>, p: Product, q: int): (r: Result<seq<StoreProduct>>)
    ensures r.Ok? <==> FindProduct(items, p.id).Some? && items[FindProduct(items, p.id).value].available >= q
    ensures FindProduct(items, p.id).None? ==> r == Err(ProductNotFound)
    ensures r.Err? && FindProduct(items, p.id).Some? ==> r.error == InsufficientAvailable
    ensures r.Ok? ==> var k := FindProduct(items, p.id).value;
      && |r.value| == |items|
      && r.value[k].product == items[k].product
      && r.value[k].available == items[k].available - q
      && r.value[k].reserved == items[k].reserved + q
      && forall j :: 0 <= j < |items| && j != k ==> r.value[j] == items[j]
  {
    match FindProduct(items, p.id)
    case None => Err(ProductNotFound)
    case Some(k) =>
      if items[k].available < q then Err(InsufficientAvailable) else Ok(Adjust(items, k, -q, q))
  }

  /** Store.checkoutReservation: retires `q` reserved units of `p`, leaving
      `available` alone; fails, changing nothing, when the product is unknown or
      fewer than `q` are reserved. */
  function LedgerCheckout(items: seq<StoreProduct>, p: Product, q: int): (r: Result<seq<StoreProduct>>)
    ensures r.Ok? <==> FindProduct(items, p.id).Some? && items[FindProduct(items, p.id).value].reserved >= q
    ensures FindProduct(items, p.id).None? ==> r == Err(ProductNotFound)
    ensures r.Err? && FindProduct(items, p.id).Some? ==> r.error == InsufficientReserved
    ensures r.Ok? ==> var k := FindProduct(items, p.id).value;
      && |r.value| == |items|
      && r.value[k].product == items[k].product
      && r.value[k].available == items[k].available
      && r.value[k].reserved == items[k].reserved - q
      && forall j :: 0 <= j < |items| && j != k ==> r.value[j] == items[j]
  {
    match FindProduct(items, p.id)
    case None => Err(ProductNotFound)
    case Some(k) =>
      if items[k].reserved < q then Err(InsufficientReserved) else Ok(Adjust(items, k, 0, -q))
  }

  /** Units of `id` the ledger holds: available plus reserved, over all its entries. */
  function Held(items: seq<StoreProduct>, id: int): int
  {
    if items == [] then 0
    else (if items[0].product.id == id then items[0].available + items[0].reserved else 0) + Held(items[1..], id)
  }

  /** Two ledgers with the same products entry by entry (only counts differ). */
  predicate SameProducts(a: seq<StoreProduct>, b: seq<StoreProduct>)
  {
    |a| == |b| && forall j :: 0 <= j < |a| ==> a[j].product == b[j].product
  }

  /** Every count of the ledger is non-negative. */
  predicate NonNegative(items: seq<StoreProduct>)
  {
    forall j :: 0 <= j < |items| ==> items[j].available >= 0 && items[j].reserved >= 0
  }

  /** The product id of entry `i`. */
  function IdAt(items: seq<StoreProduct>, i: nat): int
    requires i < |items|
  {
    items[i].product.id
  }

  /** No two entries are for the same product id. */
  predicate DistinctIds(items: seq<StoreProduct>)
  {
    forall i, j {:trigger IdAt(items, i), IdAt(items, j)} :: 0 <= i < j < |items| ==> IdAt(items, i) != IdAt(items, j)
  }

  /** Two different entries of a ledger with distinct ids have different products. */
  lemma DistinctAt(items: seq<StoreProduct>, i: nat, j: nat)
    requires DistinctIds(items) && i < |items| && j < |items| && i != j
    ensures items[i].product.id != items[j].product.id
  {
    if i < j {
      assert IdAt(items, i) != IdAt(items, j);
    } else {
      assert IdAt(items, j) != IdAt(items, i);
    }
  }

  /** Distinct ids depend only on the products, not on the counts. */
  lemma DistinctSameProducts(a: seq<StoreProduct>, b: seq<StoreProduct>)
    requires DistinctIds(a) && SameProducts(a, b)
    ensures DistinctIds(b)
  {
    forall i, j | 0 <= i < j < |b|
      ensures IdAt(b, i) != IdAt(b, j)
    {
      assert IdAt(a, i) != IdAt(a, j);
    }
  }

  /** A new entry for a product the ledger lacks keeps the ids distinct. */
  lemma DistinctAppend(items: seq<StoreProduct>, e: StoreProduct)
    requires DistinctIds(items) && FindProduct(items, e.product.id).None?
    ensures DistinctIds(items + [e])
  {
    var r := items + [e];
    forall i, j | 0 <= i < j < |r|
      ensures IdAt(r, i) != IdAt(r, j)
    {
      if j < |items| {
        assert IdAt(items, i) != IdAt(items, j);
      }
    }
  }

  lemma {:induction false} HeldAdjust(items: seq<StoreProduct>, k: nat, dA: int, dR: int, id: int)
    requires k < |items|
    ensures Held(Adjust(items, k, dA, dR), id)
         == Held(items, id) + (if items[k].product.id == id then dA + dR else 0)
  {
    var a := Adjust(items, k, dA, dR);
    if k > 0 {
      assert a[1..] == Adjust(items[1..], k - 1, dA, dR);
      HeldAdjust(items[1..], k - 1, dA, dR, id);
    } else {
      assert a[1..] == items[1..];
    }
  }

  lemma {:induction false} HeldConcat(a: seq<StoreProduct>, b: seq<StoreProduct>, id: int)
    ensures Held(a + b, id) == Held(a, id) + Held(b, id)
  {
    if a == [] {
      assert a + b == b;
    } else {
      assert (a + b)[1..] == a[1..] + b;
      HeldConcat(a[1..], b, id);
    }
  }

  /** A reservation only moves units: for every product, available + reserved is unchanged. */
  lemma ReserveConserves(items: seq<StoreProduct>, p: Product, q: int, id: int)
    requires LedgerReserve(items, p, q).Ok?
    ensures Held(LedgerReserve(items, p, q).value, id) == Held(items, id)
  {
    HeldAdjust(items, FindProduct(items, p.id).value, -q, q, id);
  }

  /** A checkout removes exactly `q` units of `p` from the ledger, and nothing else. */
  lemma CheckoutRemoves(items: seq<StoreProduct>, p: Product, q: int, id: int)
    requires LedgerCheckout(items, p, q).Ok?
    ensures Held(LedgerCheckout(items, p, q).value, id) == Held(items, id) - (if id == p.id then q else 0)
  {
    HeldAdjust(items, FindProduct(items, p.id).value, 0, -q, id);
  }

  /** A successful reserve is Adjust at the product's entry. */
  lemma ReserveIs(items: seq<StoreProduct>, p: Product, q: int, k: nat)
    requires FindProduct(items, p.id) == Some(k) && items[k].available >= q
    ensures LedgerReserve(items, p, q) == Ok(Adjust(items, k, -q, q))
  {
  }

  /** A successful checkout is Adjust at the product's entry. */
  lemma CheckoutIs(items: seq<StoreProduct>, p: Product, q: int, k: nat)
    requires FindProduct(items, p.id) == Some(k) && items[k].reserved >= q
    ensures LedgerCheckout(items, p, q) == Ok(Adjust(items, k, 0, -q))
  {
  }

  /** reserve(p, q) then checkoutReservation(p, q): available is lower by q and
      reserved is back where it was; every other entry is untouched. */
  lemma ReserveThenCheckout(items: seq<StoreProduct>, p: Product, q: int)
    requires NonNegative(items) && LedgerReserve(items, p, q).Ok?
    ensures LedgerCheckout(LedgerReserve(items, p, q).value, p, q)
         == Ok(Retired(items, FindProduct(items, p.id).value, q))
  {
    var k := FindProduct(items, p.id).value;
    var after := Adjust(items, k, -q, q);
    ReserveIs(items, p, q, k);
    FindProductSameProducts(items, after, p.id);
    CheckoutIs(after, p, q, k);
    AdjustTwice(items, k, q);
  }

  /** Entry `k` with `q` fewer units available and the reserved count as it was. */
  function Retired(items: seq<StoreProduct>, k: nat, q: int): seq<StoreProduct>
    requires k < |items|
  {
    items[k := items[k].(available := items[k].available - q)]
  }

  /** Reserving `q` units at entry `k` and then retiring them is Retired. */
  lemma AdjustTwice(items: seq<StoreProduct>, k: nat, q: int)
    requires k < |items|
    ensures Adjust(Adjust(items, k, -q, q), k, 0, -q) == Retired(items, k, q)
  {
    var once := Adjust(items, k, -q, q);
    assert once[k].reserved == items[k].reserved + q;
    assert Adjust(once, k, 0, -q)[k] == Retired(items, k, q)[k];
  }

  /** The search for a product looks only at the products, not at the counts. */
  lemma {:induction false} FindProductSameProducts(a: seq<StoreProduct>, b: seq<StoreProduct>, id: int)
    requires SameProducts(a, b)
    ensures FindProduct(a, id) == FindProduct(b, id)
  {
    if a != [] {
      FindProductSameProducts(a[1..], b[1..], id);
    }
  }

  /** Reserve and checkout with a non-negative quantity keep the ledger's products and
      its counts non-negative. */
  lemma ReserveKeepsShape(items: seq<StoreProduct>, p: Product, q: int)
    requires NonNegative(items) && q >= 0 && LedgerReserve(items, p, q).Ok?
    ensures SameProducts(items, LedgerReserve(items, p, q).value)
    ensures NonNegative(LedgerReserve(items, p, q).value)
  {
  }

  lemma CheckoutKeepsShape(items: seq<StoreProduct>, p: Product, q: int)
    requires NonNegative(items) && q >= 0 && LedgerCheckout(items, p, q).Ok?
    ensures SameProducts(items, LedgerCheckout(items, p, q).value)
    ensures NonNegative(LedgerCheckout(items, p, q).value)
  {
  }

  /** In a ledger with distinct product ids, the search finds each entry at its own place. */
  lemma FindDistinct(items: seq<StoreProduct>, k: nat)
    requires DistinctIds(items) && k < |items|
    ensures FindProduct(items, items[k].product.id) == Some(k)
  {
    var f := FindProduct(items, items[k].product.id);
    if f.Some? && f.value != k {
      DistinctAt(items, f.value, k);
    }
  }

  /** A warehouse or an order (Store, with Warehouse and Order as its two uses). */
  class Store {
    const id: int
    const loc: Location
    var items: seq<StoreProduct>

    constructor (id: int, loc: Location, items: seq<StoreProduct>)
      ensures this.id == id && this.loc == loc && this.items == items
    {
      this.id := id;
      this.loc := loc;
      this.items := items;
    }

    /** Store.reserve: on success the ledger becomes LedgerReserve's; on failure it is unchanged. */
    method Reserve(p: Product, q: int) returns (o: Outcome)
      modifies this
      ensures var r := LedgerReserve(old(items), p, q);
        && (o == if r.Ok? then Pass else Fail(r.error))
        && items == (if r.Ok? then r.value else old(items))
    {
      var r := LedgerReserve(items, p, q);
      if r.Ok? {
        items := r.value;
        o := Pass;
      } else {
        o := Fail(r.error);
      }
    }

    /** Store.checkoutReservation: on success the ledger becomes LedgerCheckout's; on failure it is unchanged. */
    method CheckoutReservation(p: Product, q: int) returns (o: Outcome)
      modifies this
      ensures var r := LedgerCheckout(old(items), p, q);
        && (o == if r.Ok? then Pass else Fail(r.error))
        && items == (if r.Ok? then r.value else old(items))
    {
      var r := LedgerCheckout(items, p, q);
      if r.Ok? {
        items := r.value;
        o := Pass;
      } else {
        o := Fail(r.error);
      }
    }
  }
}
