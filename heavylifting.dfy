// GreedyHeavyLiftingAlgorithm.kt: the planner that books every outstanding unit
// up front, order by order, into payloads no heavier than a drone can carry,
// and then hands the payloads out first in, first out.
module HeavyLifting {
  import opened Results
  import opened Products
  import opened Geometry
  import opened Ledger
  import opened Orders
  import opened Commands
  import opened Drones
  import opened World

  /** PayloadItem: `quantity` units of `product` to be loaded at warehouse `warehouse` (an id). */
  datatype PayloadItem = PayloadItem(warehouse: int, product: Product, quantity: int)

  /** Payload: the items of one trip, all for the order with id `order`. */
  datatype Payload = Payload(order: int, items: seq<PayloadItem>)

  /** Position `a` comes before position `b` in a stable sort by key: a smaller
      key, or an equal key and an earlier position. */
  predicate Before(keys: seq<int>, a: nat, b: nat)
    requires a < |keys| && b < |keys|
  {
    keys[a] < keys[b] || (keys[a] == keys[b] && a < b)
  }

  /** `r` lists positions of `keys` in stable-sort order. */
  predicate Ordered(r: seq<nat>, keys: seq<int>)
  {
    && (forall i :: 0 <= i < |r| ==> r[i] < |keys|)
    && forall i, j :: 0 <= i < j < |r| ==> Before(keys, r[i], r[j])
  }

  /** Position `i` put in its place in `r`: after every position whose key is at most its own. */
  function Insert(r: seq<nat>, i: nat, keys: seq<int>): seq<nat>
    requires i < |keys| && forall j :: 0 <= j < |r| ==> r[j] < |keys|
  {
    if r == [] then [i]
    else if keys[r[0]] > keys[i] then [i] + r
    else [r[0]] + Insert(r[1..], i, keys)
  }

  /** The tail of a stably sorted list is stably sorted. */
  lemma TailOrdered(r: seq<nat>, keys: seq<int>)
    requires r != [] && Ordered(r, keys)
    ensures Ordered(r[1..], keys)
  {
    var tail := r[1..];
    forall a, b | 0 <= a < b < |tail| ensures Before(keys, tail[a], tail[b]) {
      assert tail[a] == r[a + 1] && tail[b] == r[b + 1];
    }
  }

  /** A stably sorted list stays sorted with a head that comes before all of it. */
  lemma ConsOrdered(x: nat, t: seq<nat>, keys: seq<int>)
    requires x < |keys| && Ordered(t, keys)
    requires forall b :: 0 <= b < |t| ==> Before(keys, x, t[b])
    ensures Ordered([x] + t, keys)
  {
    var s := [x] + t;
    forall a, b | 0 <= a < b < |s| ensures Before(keys, s[a], s[b]) {
      assert s[b] == t[b - 1];
      if a > 0 {
        assert s[a] == t[a - 1];
      }
    }
  }

  /** The head of a stably sorted list comes before any of its tail, and
      before a later position `i` with a key no smaller. */
  lemma HeadFirst(r: seq<nat>, i: nat, keys: seq<int>, t: seq<nat>)
    requires r != [] && i < |keys| && Ordered(r, keys) && r[0] < i && keys[r[0]] <= keys[i]
    requires multiset(t) == multiset(r[1..]) + multiset{i}
    requires forall b :: 0 <= b < |t| ==> t[b] < |keys|
    ensures forall b :: 0 <= b < |t| ==> Before(keys, r[0], t[b])
  {
    var tail := r[1..];
    forall b | 0 <= b < |t| ensures Before(keys, r[0], t[b]) {
      var x := t[b];
      assert x in multiset(t);
      if x != i {
        assert x in multiset(tail);
        var j :| 0 <= j < |tail| && tail[j] == x;
        assert Before(keys, r[0], r[j + 1]);
      }
    }
  }

  /** A position with a smaller key than the head of a stably sorted list goes in front. */
  lemma InsertFront(r: seq<nat>, i: nat, keys: seq<int>)
    requires r != [] && i < |keys| && Ordered(r, keys) && keys[r[0]] > keys[i]
    ensures Ordered([i] + r, keys)
  {
    forall b | 0 <= b < |r| ensures Before(keys, i, r[b]) {
      if b > 0 {
        assert Before(keys, r[0], r[b]);
      }
    }
    ConsOrdered(i, r, keys);
  }

  /** Insert adds exactly the one position. */
  lemma {:induction false} InsertCount(r: seq<nat>, i: nat, keys: seq<int>)
    requires i < |keys| && forall j :: 0 <= j < |r| ==> r[j] < |keys|
    ensures |Insert(r, i, keys)| == |r| + 1
    ensures multiset(Insert(r, i, keys)) == multiset(r) + multiset{i}
  {
    if r != [] && keys[r[0]] <= keys[i] {
      var tail := r[1..];
      InsertCount(tail, i, keys);
      assert r == [r[0]] + tail;
      assert Insert(r, i, keys) == [r[0]] + Insert(tail, i, keys);
    }
  }

  /** The positions after Insert are those before and the inserted one. */
  lemma InsertMembers(r: seq<nat>, i: nat, keys: seq<int>)
    requires i < |keys| && forall j :: 0 <= j < |r| ==> r[j] < |keys|
    ensures forall x :: x in Insert(r, i, keys) <==> x in r || x == i
  {
    InsertCount(r, i, keys);
    var s := Insert(r, i, keys);
    forall x ensures x in s <==> x in r || x == i {
      assert x in s <==> x in multiset(s);
      assert x in r <==> x in multiset(r);
    }
  }

  /** All positions of a list drawn from 0..n-1 lie below n. */
  lemma MembersBelow(r: seq<nat>, n: nat)
    requires forall x :: x in r <==> 0 <= x < n
    ensures forall j :: 0 <= j < |r| ==> r[j] < n
  {
    forall j | 0 <= j < |r| ensures r[j] < n {
      assert r[j] in r;
    }
  }

  /** Inserting a position larger than all listed ones keeps the list stably sorted. */
  lemma {:induction false} InsertOrdered(r: seq<nat>, i: nat, keys: seq<int>)
    requires i < |keys| && Ordered(r, keys) && forall j :: 0 <= j < |r| ==> r[j] < i
    ensures Ordered(Insert(r, i, keys), keys)
  {
    if r == [] {
    } else if keys[r[0]] > keys[i] {
      InsertFront(r, i, keys);
    } else {
      var tail := r[1..];
      TailOrdered(r, keys);
      InsertOrdered(tail, i, keys);
      InsertCount(tail, i, keys);
      var t := Insert(tail, i, keys);
      HeadFirst(r, i, keys, t);
      ConsOrdered(r[0], t, keys);
      assert Insert(r, i, keys) == [r[0]] + t;
    }
  }

  /** Positions 0..n-1 of `keys`, stably sorted by key. */
  function SortPrefix(keys: seq<int>, n: nat): (r: seq<nat>)
    requires n <= |keys|
    ensures Ordered(r, keys) && |r| == n
    ensures forall x :: x in r <==> 0 <= x < n
  {
    if n == 0 then []
    else
      var prev := SortPrefix(keys, n - 1);
      MembersBelow(prev, n - 1);
      InsertOrdered(prev, n - 1, keys);
      InsertCount(prev, n - 1, keys);
      InsertMembers(prev, n - 1, keys);
      var r := Insert(prev, n - 1, keys);
      r
  }

  /** Kotlin's `sortedBy` (a stable sort) of positions by key: every position
      once, ascending keys, equal keys in their original order. */
  function SortedBy(keys: seq<int>): (r: seq<nat>)
    ensures Ordered(r, keys) && |r| == |keys|
    ensures forall x :: x in r <==> 0 <= x < |keys|
  {
    SortPrefix(keys, |keys|)
  }

  /** The planner's ranking of warehouse site `w` for a drone at `loc` serving
      the order at `dest`: there, on to the order, plus the direct distance. */
  function Detour(loc: Location, w: Location, dest: Location): nat
  {
    Dist(loc, w) + Dist(w, dest) + Dist(loc, dest)
  }

  /** Each site's Detour. */
  function Costs(sites: seq<Location>, loc: Location, dest: Location): (r: seq<nat>)
    ensures |r| == |sites| && forall j :: 0 <= j < |sites| ==> r[j] == Detour(loc, sites[j], dest)
  {
    seq(|sites|, j requires 0 <= j < |sites| => Detour(loc, sites[j], dest))
  }

  /** `filter { stock > 0 }.sortedBy { cost }.first()` over the first `n`
      warehouses: the cheapest one with stock, the earliest among equally cheap
      ones; none when no warehouse has stock. */
  function Closest(stock: seq<int>, cost: seq<nat>, n: nat): (r: Option<nat>)
    requires n <= |stock| && n <= |cost|
    ensures r.None? <==> forall j :: 0 <= j < n ==> stock[j] <= 0
    ensures r.Some? ==> r.value < n && stock[r.value] > 0
    ensures r.Some? ==> forall j :: 0 <= j < n && stock[j] > 0 ==>
      cost[r.value] < cost[j] || (cost[r.value] == cost[j] && r.value <= j)
  {
    if n == 0 then None
    else
      var r := Closest(stock, cost, n - 1);
      if stock[n - 1] <= 0 then r
      else if r.Some? && cost[r.value] <= cost[n - 1] then r
      else Some(n - 1)
  }

  /** Units of product `pid` among the items. */
  function Units(items: seq<PayloadItem>, pid: int): int
  {
    if items == [] then 0
    else
      var last := items[|items| - 1];
      Units(items[..|items| - 1], pid) + (if last.product.id == pid then last.quantity else 0)
  }

  /** Units of product `pid` among the items to be loaded at warehouse `w`. */
  function UnitsAt(items: seq<PayloadItem>, w: int, pid: int): int
  {
    if items == [] then 0
    else
      var last := items[|items| - 1];
      UnitsAt(items[..|items| - 1], w, pid) + (if last.warehouse == w && last.product.id == pid then last.quantity else 0)
  }

  /** The weight of the items: the payloadWeight of Payload.toString. */
  function ItemsWeight(items: seq<PayloadItem>): int
  {
    if items == [] then 0
    else
      var last := items[|items| - 1];
      ItemsWeight(items[..|items| - 1]) + last.quantity * last.product.weight
  }

  /** Units of product `pid` the payloads carry to order `orderId`. */
  function Booked(cache: seq<Payload>, orderId: int, pid: int): int
  {
    if cache == [] then 0
    else
      var last := cache[|cache| - 1];
      Booked(cache[..|cache| - 1], orderId, pid) + (if last.order == orderId then Units(last.items, pid) else 0)
  }

  /** Units of product `pid` the payloads take from warehouse `w`. */
  function Drawn(cache: seq<Payload>, w: int, pid: int): int
  {
    if cache == [] then 0
    else Drawn(cache[..|cache| - 1], w, pid) + UnitsAt(cache[|cache| - 1].items, w, pid)
  }

  /** `payloadItems.add`: the item joins the payload opened last. */
  function AddItem(cache: seq<Payload>, it: PayloadItem): seq<Payload>
    requires cache != []
  {
    var last := cache[|cache| - 1];
    cache[..|cache| - 1] + [Payload(last.order, last.items + [it])]
  }

  /** Adding an item books its units for the last payload's order only. */
  lemma BookedAdd(cache: seq<Payload>, it: PayloadItem, orderId: int, pid: int)
    requires cache != []
    ensures Booked(AddItem(cache, it), orderId, pid) == Booked(cache, orderId, pid)
      + (if cache[|cache| - 1].order == orderId && it.product.id == pid then it.quantity else 0)
  {
    var last := cache[|cache| - 1];
    var r := AddItem(cache, it);
    assert r[..|r| - 1] == cache[..|cache| - 1];
    assert (last.items + [it])[..|last.items|] == last.items;
  }

  /** Adding an item draws its units from its own warehouse and product only. */
  lemma DrawnAdd(cache: seq<Payload>, it: PayloadItem, w: int, pid: int)
    requires cache != []
    ensures Drawn(AddItem(cache, it), w, pid) == Drawn(cache, w, pid)
      + (if it.warehouse == w && it.product.id == pid then it.quantity else 0)
  {
    var last := cache[|cache| - 1];
    var r := AddItem(cache, it);
    assert r[..|r| - 1] == cache[..|cache| - 1];
    assert (last.items + [it])[..|last.items|] == last.items;
  }

  /** Adding an item adds its weight to the last payload. */
  lemma WeightAdd(items: seq<PayloadItem>, it: PayloadItem)
    ensures ItemsWeight(items + [it]) == ItemsWeight(items) + it.quantity * it.product.weight
  {
    assert (items + [it])[..|items|] == items;
  }

  /** An empty payload books and draws nothing. */
  lemma OpenEmpty(cache: seq<Payload>, orderId: int)
    ensures forall o, pid :: Booked(cache + [Payload(orderId, [])], o, pid) == Booked(cache, o, pid)
    ensures forall w, pid :: Drawn(cache + [Payload(orderId, [])], w, pid) == Drawn(cache, w, pid)
  {
    assert (cache + [Payload(orderId, [])])[..|cache|] == cache;
  }

  /** What the planner works with besides the ledgers: the warehouse sites in
      list order, the drone load limit and the product list. */
  datatype Setting = Setting(sites: seq<Location>, maxLoad: int, catalog: seq<Product>)

  /** Every product weighs more than nothing and fits on a drone on its own.
      The source does not check the second half; without it the booking loop
      never ends, opening payload after payload that cannot take a unit. */
  predicate Fits(s: Setting)
  {
    WellFormedCatalog(s.catalog) && forall i :: 0 <= i < |s.catalog| ==> s.catalog[i].weight <= s.maxLoad
  }

  /** One warehouse ledger per site. */
  predicate Stocks(ws: seq<seq<StoreProduct>>, s: Setting)
  {
    |ws| == |s.sites| && forall w :: 0 <= w < |ws| ==> WarehouseStock(ws[w], s.catalog)
  }

  /** A positive quantity of a catalogued product from an existing warehouse. */
  predicate ItemOk(it: PayloadItem, s: Setting)
  {
    it.quantity > 0 && 0 <= it.warehouse < |s.sites| && Catalogued(it.product, s.catalog)
  }

  /** A payload ready for a drone: at least one item, each one ItemOk, and no
      heavier than the load limit. */
  predicate Packed(p: Payload, s: Setting)
  {
    p.items != [] && ItemsWeight(p.items) <= s.maxLoad && ItemsOk(p.items, s)
  }

  predicate ItemsOk(items: seq<PayloadItem>, s: Setting)
  {
    forall j :: 0 <= j < |items| ==> ItemOk(items[j], s)
  }

  predicate AllPacked(cache: seq<Payload>, s: Setting)
  {
    forall j :: 0 <= j < |cache| ==> Packed(cache[j], s)
  }

  /** The trip being filled: `remaining` is what the drone can still take on
      top of the last payload; while it is positive the last payload is one of
      order `orderId`. */
  predicate Trip(cache: seq<Payload>, remaining: int, orderId: int, s: Setting)
  {
    && remaining >= 0
    && (cache != [] ==> ItemsWeight(cache[|cache| - 1].items) + remaining <= s.maxLoad)
    && (remaining > 0 ==> cache != [] && cache[|cache| - 1].order == orderId)
  }

  /** `after` is `before` with `d` units moved from available to reserved. */
  predicate Transferred(before: StoreProduct, after: StoreProduct, d: int)
  {
    after == before.(available := before.available - d, reserved := before.reserved + d)
  }

  /** Each warehouse entry has moved from available to reserved the units that
      the payloads added from `c0` to `c` take from it. */
  ghost predicate Drew(ws0: seq<seq<StoreProduct>>, ws: seq<seq<StoreProduct>>, c0: seq<Payload>, c: seq<Payload>,
                       s: Setting)
  {
    && Stocks(ws0, s) && Stocks(ws, s)
    && forall w, pid :: 0 <= w < |ws| && 0 <= pid < |s.catalog| ==>
         Transferred(ws0[w][pid], ws[w][pid], Drawn(c, w, pid) - Drawn(c0, w, pid))
  }

  /** Each entry of the order's ledger has moved from available to reserved the
      units that the payloads added from `c0` to `c` carry to the order. */
  ghost predicate Booking(items0: seq<StoreProduct>, items: seq<StoreProduct>, c0: seq<Payload>, c: seq<Payload>,
                          orderId: int)
  {
    && |items| == |items0|
    && forall k :: 0 <= k < |items| ==>
         var pid := items0[k].product.id;
         Transferred(items0[k], items[k], Booked(c, orderId, pid) - Booked(c0, orderId, pid))
  }

  /** No other order gains or loses a booked unit from `c0` to `c`. */
  ghost predicate KeepsOthers(c0: seq<Payload>, c: seq<Payload>, orderId: int)
  {
    forall o, pid :: o != orderId ==> Booked(c, o, pid) == Booked(c0, o, pid)
  }

  /** `c` is `c0` followed by payloads for order `orderId`. */
  predicate Appended(c0: seq<Payload>, c: seq<Payload>, orderId: int)
  {
    |c| >= |c0| && c[..|c0|] == c0 && forall j :: |c0| <= j < |c| ==> c[j].order == orderId
  }

  /** A load of at least one unit's weight holds at least one unit. */
  lemma AtLeastOne(r: int, w: int)
    requires 0 < w <= r
    ensures r / w >= 1
  {
  }

  /** What the drone can take once a unit of `p` is due: all of its load
      limit on a fresh trip when one unit does not fit in what remains. */
  function Room(s: Setting, remaining: int, p: Product): (r: int)
    requires Fits(s) && Catalogued(p, s.catalog) && remaining >= 0
    ensures p.weight <= r
    ensures remaining >= p.weight ==> r == remaining
  {
    if remaining < p.weight then s.maxLoad else remaining
  }

  /** The payloads once a unit of `p` is due: a fresh empty payload for the
      order is opened when one unit does not fit in what remains. */
  function Opened(cache: seq<Payload>, remaining: int, p: Product, orderId: int): seq<Payload>
  {
    if remaining < p.weight then cache + [Payload(orderId, [])] else cache
  }

  /** One pass of the booking loop for entry `k` of order `orderId`, with the
      drone imagined at `loc` able to take `remaining` more, once warehouse `w`
      (which holds the product) has been chosen. A new payload is opened, and
      the drone's capacity restored, when one unit of the product does not
      fit. The quantity is the least of what the order still needs, what the
      warehouse has and what fits; it is reserved in both ledgers and added to
      the open payload, and the drone moves to the warehouse. */
  method BookOnce(s: Setting, ws: seq<seq<StoreProduct>>, items: seq<StoreProduct>, k: nat, orderId: int,
                  w: nat, remaining: int, cache: seq<Payload>)
    returns (ws': seq<seq<StoreProduct>>, items': seq<StoreProduct>, loc': Location,
             remaining': int, cache': seq<Payload>)
    requires Fits(s) && Stocks(ws, s) && OrderLedger(items, s.catalog) && k < |items| && items[k].available > 0
    requires Trip(cache, remaining, orderId, s)
    requires w < |ws| && Availability(ws, items[k].product.id)[w] > 0
    ensures var p := items[k].product;
      var r := Room(s, remaining, p);
      var trip := Opened(cache, remaining, p, orderId);
      var q := Min3(items[k].available, ws[w][p.id].available, r / p.weight);
      && 0 < q
      && ws' == ws[w := Adjust(ws[w], p.id, -q, q)]
      && items' == Adjust(items, k, -q, q)
      && loc' == s.sites[w] && remaining' == r - q * p.weight
      && cache' == AddItem(trip, PayloadItem(w, p, q))
  {
    var p := items[k].product;
    var r := Room(s, remaining, p);
    var trip := Opened(cache, remaining, p, orderId);
    FindInStock(ws[w], s.catalog, p);
    assert p.weight <= r by {
      assert Catalogued(p, s.catalog);
    }
    AtLeastOne(r, p.weight);
    var q := Min3(items[k].available, ws[w][p.id].available, r / p.weight);
    ws' := ws[w := Adjust(ws[w], p.id, -q, q)];
    items' := Adjust(items, k, -q, q);
    loc' := s.sites[w];
    remaining' := r - q * p.weight;
    cache' := AddItem(trip, PayloadItem(w, p, q));
  }

  /** The planner's working state while an order is booked: the warehouse
      ledgers, the order's ledger, the payloads, where the drone is imagined
      and what it can still take on the open payload. */
  datatype Draft = Draft(ws: seq<seq<StoreProduct>>, items: seq<StoreProduct>, cache: seq<Payload>,
                         loc: Location, remaining: int)

  /** The states a pass of the booking loop can start from: well-formed
      ledgers, and an open payload whenever there is room left. */
  predicate Workable(s: Setting, ws: seq<seq<StoreProduct>>, items: seq<StoreProduct>, cache: seq<Payload>,
                     remaining: int)
  {
    && Fits(s) && Stocks(ws, s) && OrderLedger(items, s.catalog)
    && remaining >= 0 && (remaining > 0 ==> cache != [])
  }

  /** The quantity one pass at warehouse `w` moves is positive, at most what
      the order needs and the warehouse has, and fits in the room. */
  lemma TakeFacts(s: Setting, orderId: int, k: nat, w: nat, ws: seq<seq<StoreProduct>>, items: seq<StoreProduct>,
                  cache: seq<Payload>, remaining: int)
    requires Workable(s, ws, items, cache, remaining) && k < |items| && items[k].available > 0
    requires w < |ws| && Availability(ws, items[k].product.id)[w] > 0
    ensures var p := items[k].product;
      && Catalogued(p, s.catalog) && p.id < |ws[w]| && ws[w][p.id].product == p
      && var r := Room(s, remaining, p);
      && var q := Min3(items[k].available, ws[w][p.id].available, r / p.weight);
      && 0 < q && q * p.weight <= r
      && Workable(s, ws[w := Adjust(ws[w], p.id, -q, q)], Adjust(items, k, -q, q),
                  AddItem(Opened(cache, remaining, p, orderId), PayloadItem(w, p, q)), r - q * p.weight)
  {
    var p := items[k].product;
    assert Catalogued(p, s.catalog);
    FindInStock(ws[w], s.catalog, p);
    var r := Room(s, remaining, p);
    AtLeastOne(r, p.weight);
    var q := Min3(items[k].available, ws[w][p.id].available, r / p.weight);
    UnitsFit(q, r, p.weight);
    AdjustKeepsStock(ws[w], s.catalog, p.id, q);
    AdjustKeepsLedger(items, s.catalog, k, q);
    assert Stocks(ws[w := Adjust(ws[w], p.id, -q, q)], s);
  }

  /** The state after one pass of the booking loop for entry `k` at
      warehouse `w`, which holds the product: BookOnce's effect. Only the
      warehouse's ledger and the entry change, the entry loses at least one
      outstanding unit, the drone is at the warehouse, and the next pass can
      start from the state. */
  ghost function Take(s: Setting, orderId: int, k: nat, w: nat, ws: seq<seq<StoreProduct>>, items: seq<StoreProduct>,
                      cache: seq<Payload>, remaining: int): (r: Draft)
    requires Workable(s, ws, items, cache, remaining) && k < |items| && items[k].available > 0
    requires w < |ws| && Availability(ws, items[k].product.id)[w] > 0
    ensures Workable(s, r.ws, r.items, r.cache, r.remaining) && r.loc == s.sites[w]
    ensures |r.ws| == |ws| && forall v :: 0 <= v < |ws| && v != w ==> r.ws[v] == ws[v]
    ensures |r.items| == |items| && 0 <= r.items[k].available < items[k].available
    ensures forall j :: 0 <= j < |items| && j != k ==> r.items[j] == items[j]
  {
    TakeFacts(s, orderId, k, w, ws, items, cache, remaining);
    var p := items[k].product;
    var room := Room(s, remaining, p);
    var q := Min3(items[k].available, ws[w][p.id].available, room / p.weight);
    Draft(ws[w := Adjust(ws[w], p.id, -q, q)], Adjust(items, k, -q, q),
          AddItem(Opened(cache, remaining, p, orderId), PayloadItem(w, p, q)), s.sites[w], room - q * p.weight)
  }

  /** One pass of the booking loop for entry `k`, from state `d`, serving the
      order at `dest`: the warehouse is the one Closest picks by Detour from
      where the drone is imagined; there is none exactly when no warehouse
      holds the product. */
  ghost function PassOf(s: Setting, orderId: int, dest: Location, k: nat, d: Draft): (r: Option<Draft>)
    requires Workable(s, d.ws, d.items, d.cache, d.remaining) && k < |d.items| && d.items[k].available > 0
    ensures r.None? <==> forall w :: 0 <= w < |d.ws| ==> Availability(d.ws, d.items[k].product.id)[w] <= 0
    ensures r.Some? ==> Workable(s, r.value.ws, r.value.items, r.value.cache, r.value.remaining)
    ensures r.Some? ==> |r.value.items| == |d.items| && 0 <= r.value.items[k].available < d.items[k].available
    ensures r.Some? ==> forall j :: 0 <= j < |d.items| && j != k ==> r.value.items[j] == d.items[j]
  {
    var c := Closest(Availability(d.ws, d.items[k].product.id), Costs(s.sites, d.loc, dest), |d.ws|);
    if c.None? then None
    else Some(Take(s, orderId, k, c.value, d.ws, d.items, d.cache, d.remaining))
  }

  /** `while (outstandingItem.available > 0)` for entry `k` from state `d`:
      pass after pass until nothing of the entry is outstanding, or none when
      some pass finds no warehouse holding the product. */
  ghost function EntryOf(s: Setting, orderId: int, dest: Location, k: nat, d: Draft): (r: Option<Draft>)
    requires Workable(s, d.ws, d.items, d.cache, d.remaining) && k < |d.items|
    ensures r.Some? ==> Workable(s, r.value.ws, r.value.items, r.value.cache, r.value.remaining)
    ensures r.Some? ==> |r.value.items| == |d.items| && r.value.items[k].available == 0
    ensures r.Some? ==> forall j :: 0 <= j < |d.items| && j != k ==> r.value.items[j] == d.items[j]
    decreases d.items[k].available
  {
    if d.items[k].available == 0 then Some(d)
    else
      var next := PassOf(s, orderId, dest, k, d);
      if next.None? then None
      else EntryOf(s, orderId, dest, k, next.value)
  }

  /** Everything the booking of order `orderId` keeps true from the moment its
      first entry was taken up, with the ledgers `ws0`, `items0` and the
      payloads `c0` of that moment: both kinds of ledger stay well formed; the
      trip being filled is described by `remaining`; every payload is ready for
      a drone; every unit that left a warehouse's available count, and every
      unit that left the order's outstanding count, is on a payload added
      since; no other order gains a unit; and the payloads added since are all
      for this order. */
  ghost predicate Progress(s: Setting, ws0: seq<seq<StoreProduct>>, items0: seq<StoreProduct>, c0: seq<Payload>,
                           orderId: int, ws: seq<seq<StoreProduct>>, items: seq<StoreProduct>, cache: seq<Payload>,
                           remaining: int)
  {
    Accounts(s, ws0, items0, c0, orderId, ws, items, cache) && Packing(s, c0, orderId, cache, remaining)
  }

  /** The ledger half of Progress. */
  ghost predicate Accounts(s: Setting, ws0: seq<seq<StoreProduct>>, items0: seq<StoreProduct>, c0: seq<Payload>,
                           orderId: int, ws: seq<seq<StoreProduct>>, items: seq<StoreProduct>, cache: seq<Payload>)
  {
    && Stocks(ws, s) && OrderLedger(items, s.catalog)
    && Drew(ws0, ws, c0, cache, s)
    && Booking(items0, items, c0, cache, orderId)
    && KeepsOthers(c0, cache, orderId)
  }

  /** The payload half of Progress. */
  predicate Packing(s: Setting, c0: seq<Payload>, orderId: int, cache: seq<Payload>, remaining: int)
  {
    && Trip(cache, remaining, orderId, s) && AllPacked(cache, s)
    && Appended(c0, cache, orderId) && (remaining > 0 ==> |cache| > |c0|)
  }

  /** At most `r / w` units of weight `w` weigh at most `r`. */
  lemma UnitsFit(q: int, r: int, w: int)
    requires 0 < w && 0 <= r && 0 <= q <= r / w
    ensures q * w <= r
  {
    assert q * w <= (r / w) * w;
  }

  /** Opening an empty payload changes no account. */
  lemma OpenedKeeps(s: Setting, ws0: seq<seq<StoreProduct>>, items0: seq<StoreProduct>, c0: seq<Payload>,
                    orderId: int, ws: seq<seq<StoreProduct>>, items: seq<StoreProduct>, cache: seq<Payload>,
                    remaining: int, p: Product)
    requires Drew(ws0, ws, c0, cache, s) && Booking(items0, items, c0, cache, orderId) && KeepsOthers(c0, cache, orderId)
    ensures var trip := Opened(cache, remaining, p, orderId);
      Drew(ws0, ws, c0, trip, s) && Booking(items0, items, c0, trip, orderId) && KeepsOthers(c0, trip, orderId)
  {
    OpenEmpty(cache, orderId);
  }

  /** Taking the units of an item from its warehouse keeps Drew. */
  lemma DrewStep(s: Setting, ws0: seq<seq<StoreProduct>>, ws: seq<seq<StoreProduct>>, c0: seq<Payload>,
                 cache: seq<Payload>, it: PayloadItem)
    requires Fits(s) && Drew(ws0, ws, c0, cache, s) && cache != []
    requires 0 <= it.warehouse < |ws| && Catalogued(it.product, s.catalog)
    requires 0 <= it.quantity <= ws[it.warehouse][it.product.id].available
    ensures Drew(ws0, ws[it.warehouse := Adjust(ws[it.warehouse], it.product.id, -it.quantity, it.quantity)],
                 c0, AddItem(cache, it), s)
  {
    var w, pid, q := it.warehouse, it.product.id, it.quantity;
    var ws' := ws[w := Adjust(ws[w], pid, -q, q)];
    AdjustKeepsStock(ws[w], s.catalog, pid, q);
    assert Stocks(ws', s);
    forall w2, pid2 | 0 <= w2 < |ws'| && 0 <= pid2 < |s.catalog|
      ensures Transferred(ws0[w2][pid2], ws'[w2][pid2], Drawn(AddItem(cache, it), w2, pid2) - Drawn(c0, w2, pid2))
    {
      DrawnAdd(cache, it, w2, pid2);
    }
  }

  /** Booking the units of an item for the order of the last payload keeps
      Booking for that order. */
  lemma BookingStep(items0: seq<StoreProduct>, items: seq<StoreProduct>, c0: seq<Payload>, cache: seq<Payload>,
                    orderId: int, k: nat, it: PayloadItem)
    requires Booking(items0, items, c0, cache, orderId) && DistinctIds(items)
    requires k < |items| && it.product.id == items[k].product.id
    requires cache != [] && cache[|cache| - 1].order == orderId
    ensures Booking(items0, Adjust(items, k, -it.quantity, it.quantity), c0, AddItem(cache, it), orderId)
  {
    var items' := Adjust(items, k, -it.quantity, it.quantity);
    forall k2 | 0 <= k2 < |items'|
      ensures Transferred(items0[k2], items'[k2],
                          Booked(AddItem(cache, it), orderId, items0[k2].product.id) - Booked(c0, orderId, items0[k2].product.id))
    {
      BookedAdd(cache, it, orderId, items0[k2].product.id);
      if k2 < k {
        assert IdAt(items, k2) != IdAt(items, k);
      } else if k < k2 {
        assert IdAt(items, k) != IdAt(items, k2);
      }
    }
  }

  /** Adding to a payload of order `orderId` books nothing for another order. */
  lemma KeepsStep(c0: seq<Payload>, cache: seq<Payload>, orderId: int, it: PayloadItem)
    requires KeepsOthers(c0, cache, orderId) && cache != [] && cache[|cache| - 1].order == orderId
    ensures KeepsOthers(c0, AddItem(cache, it), orderId)
  {
    forall o, pid | o != orderId
      ensures Booked(AddItem(cache, it), o, pid) == Booked(c0, o, pid)
    {
      BookedAdd(cache, it, o, pid);
    }
  }

  /** An item that fits in what remains keeps the trip described and every
      payload ready for a drone. */
  lemma PackStep(s: Setting, trip: seq<Payload>, r: int, orderId: int, it: PayloadItem)
    requires trip != [] && trip[|trip| - 1].order == orderId
    requires ItemsWeight(trip[|trip| - 1].items) + r <= s.maxLoad
    requires forall j :: 0 <= j < |trip| - 1 ==> Packed(trip[j], s)
    requires ItemsOk(trip[|trip| - 1].items, s)
    requires ItemOk(it, s) && it.quantity * it.product.weight <= r
    ensures Trip(AddItem(trip, it), r - it.quantity * it.product.weight, orderId, s)
    ensures AllPacked(AddItem(trip, it), s)
  {
    var last := trip[|trip| - 1];
    WeightAdd(last.items, it);
    var c := AddItem(trip, it);
    assert c[|c| - 1] == Payload(orderId, last.items + [it]);
    assert forall j :: 0 <= j < |c| - 1 ==> c[j] == trip[j];
  }

  /** Adding to the last payload, when that one was added for the order,
      keeps the payloads added since `c0` all for the order. */
  lemma AppendStep(c0: seq<Payload>, trip: seq<Payload>, orderId: int, it: PayloadItem)
    requires Appended(c0, trip, orderId) && |trip| > |c0|
    ensures Appended(c0, AddItem(trip, it), orderId) && |AddItem(trip, it)| > |c0|
  {
    var c := AddItem(trip, it);
    assert c[..|c0|] == trip[..|c0|];
  }

  /** The trip the item goes into: the open one, or a fresh one of the order. */
  lemma OpenStep(s: Setting, c0: seq<Payload>, orderId: int, cache: seq<Payload>, remaining: int, p: Product)
    requires Fits(s) && Catalogued(p, s.catalog)
    requires Trip(cache, remaining, orderId, s) && AllPacked(cache, s)
    requires Appended(c0, cache, orderId) && (remaining > 0 ==> |cache| > |c0|)
    ensures var trip := Opened(cache, remaining, p, orderId);
      && trip != [] && trip[|trip| - 1].order == orderId
      && ItemsWeight(trip[|trip| - 1].items) + Room(s, remaining, p) <= s.maxLoad
      && (forall j :: 0 <= j < |trip| - 1 ==> Packed(trip[j], s))
      && ItemsOk(trip[|trip| - 1].items, s)
      && Appended(c0, trip, orderId) && |trip| > |c0|
  {
    var trip := Opened(cache, remaining, p, orderId);
    if remaining < p.weight {
      assert trip[..|cache|] == cache;
      assert trip[..|c0|] == cache[..|c0|];
    } else {
      assert p.weight > 0 by {
        assert Catalogued(p, s.catalog);
      }
    }
  }

  /** One pass of the booking loop keeps the ledger half of Progress. */
  lemma StepAccounts(s: Setting, ws0: seq<seq<StoreProduct>>, items0: seq<StoreProduct>, c0: seq<Payload>,
                     orderId: int, ws: seq<seq<StoreProduct>>, items: seq<StoreProduct>, cache: seq<Payload>,
                     remaining: int, k: nat, w: nat)
    requires Fits(s) && Accounts(s, ws0, items0, c0, orderId, ws, items, cache)
    requires Trip(cache, remaining, orderId, s)
    requires k < |items| && items[k].available > 0
    requires w < |ws| && Availability(ws, items[k].product.id)[w] > 0
    ensures var p := items[k].product;
      var r := Room(s, remaining, p);
      var q := Min3(items[k].available, ws[w][p.id].available, r / p.weight);
      Accounts(s, ws0, items0, c0, orderId, ws[w := Adjust(ws[w], p.id, -q, q)], Adjust(items, k, -q, q),
               AddItem(Opened(cache, remaining, p, orderId), PayloadItem(w, p, q)))
  {
    var p := items[k].product;
    assert Catalogued(p, s.catalog);
    var r := Room(s, remaining, p);
    var trip := Opened(cache, remaining, p, orderId);
    FindInStock(ws[w], s.catalog, p);
    var q := Min3(items[k].available, ws[w][p.id].available, r / p.weight);
    var it := PayloadItem(w, p, q);
    OpenedKeeps(s, ws0, items0, c0, orderId, ws, items, cache, remaining, p);
    assert trip != [] && trip[|trip| - 1].order == orderId;
    DrewStep(s, ws0, ws, c0, trip, it);
    BookingStep(items0, items, c0, trip, orderId, k, it);
    KeepsStep(c0, trip, orderId, it);
    AdjustKeepsLedger(items, s.catalog, k, q);
  }

  /** One pass of the booking loop keeps the payload half of Progress. */
  lemma StepPacking(s: Setting, c0: seq<Payload>, orderId: int, ws: seq<seq<StoreProduct>>, items: seq<StoreProduct>,
                    cache: seq<Payload>, remaining: int, k: nat, w: nat)
    requires Fits(s) && Stocks(ws, s) && OrderLedger(items, s.catalog) && Packing(s, c0, orderId, cache, remaining)
    requires k < |items| && items[k].available > 0
    requires w < |ws| && Availability(ws, items[k].product.id)[w] > 0
    ensures var p := items[k].product;
      var r := Room(s, remaining, p);
      var q := Min3(items[k].available, ws[w][p.id].available, r / p.weight);
      Packing(s, c0, orderId, AddItem(Opened(cache, remaining, p, orderId), PayloadItem(w, p, q)), r - q * p.weight)
  {
    var p := items[k].product;
    assert Catalogued(p, s.catalog);
    var r := Room(s, remaining, p);
    var trip := Opened(cache, remaining, p, orderId);
    FindInStock(ws[w], s.catalog, p);
    AtLeastOne(r, p.weight);
    var q := Min3(items[k].available, ws[w][p.id].available, r / p.weight);
    UnitsFit(q, r, p.weight);
    var it := PayloadItem(w, p, q);
    OpenStep(s, c0, orderId, cache, remaining, p);
    PackStep(s, trip, r, orderId, it);
    AppendStep(c0, trip, orderId, it);
  }

  /** `while (outstandingItem.available > 0)` for entry `k` of order
      `orderId`, whose site is `dest`: pass after pass, the warehouse is the
      one Closest picks among those holding the product, ranked by Detour from
      where the drone is imagined; the planner throws when none holds it. On
      success the entry has nothing outstanding, no other entry has changed and
      Progress still holds. The passes are exactly those EntryOf takes, and
      the planner throws exactly when EntryOf finds no warehouse. */
  method BookEntry(s: Setting, ghost ws0: seq<seq<StoreProduct>>, ghost items0: seq<StoreProduct>,
                   ghost c0: seq<Payload>, orderId: int, dest: Location, k: nat,
                   ws: seq<seq<StoreProduct>>, items: seq<StoreProduct>, cache: seq<Payload>,
                   loc: Location, remaining: int)
    returns (o: Outcome, ws': seq<seq<StoreProduct>>, items': seq<StoreProduct>, cache': seq<Payload>,
             loc': Location, remaining': int)
    requires Fits(s) && Progress(s, ws0, items0, c0, orderId, ws, items, cache, remaining) && k < |items|
    ensures o == Pass || o == Fail(NoWarehouseWithStock)
    ensures o == Pass ==>
      && Progress(s, ws0, items0, c0, orderId, ws', items', cache', remaining')
      && |items'| == |items| && items'[k].available == 0
      && forall j :: 0 <= j < |items| && j != k ==> items'[j] == items[j]
    ensures var e := EntryOf(s, orderId, dest, k, Draft(ws, items, cache, loc, remaining));
      && (o == Pass <==> e.Some?)
      && (o == Pass ==> Draft(ws', items', cache', loc', remaining') == e.value)
  {
    ghost var start := Draft(ws, items, cache, loc, remaining);
    o, ws', items', cache', loc', remaining' := Pass, ws, items, cache, loc, remaining;
    while items'[k].available > 0
      invariant o == Pass && Progress(s, ws0, items0, c0, orderId, ws', items', cache', remaining')
      invariant |items'| == |items| && forall j :: 0 <= j < |items| && j != k ==> items'[j] == items[j]
      invariant EntryOf(s, orderId, dest, k, start) == EntryOf(s, orderId, dest, k, Draft(ws', items', cache', loc', remaining'))
      decreases items'[k].available
    {
      ghost var here := Draft(ws', items', cache', loc', remaining');
      o, ws', items', cache', loc', remaining' :=
        BookPass(s, ws0, items0, c0, orderId, dest, k, ws', items', cache', loc', remaining');
      if o.Fail? {
        assert PassOf(s, orderId, dest, k, here).None?;
        return;
      }
      assert PassOf(s, orderId, dest, k, here) == Some(Draft(ws', items', cache', loc', remaining'));
    }
  }

  /** One pass of BookEntry's loop: the closest warehouse holding the product
      is booked once, so the entry's outstanding quantity drops, no other
      entry changes and Progress still holds; with no warehouse holding it,
      the planner throws. The booking is Take at the warehouse Closest picks. */
  method BookPass(s: Setting, ghost ws0: seq<seq<StoreProduct>>, ghost items0: seq<StoreProduct>,
                  ghost c0: seq<Payload>, orderId: int, dest: Location, k: nat,
                  ws: seq<seq<StoreProduct>>, items: seq<StoreProduct>, cache: seq<Payload>,
                  loc: Location, remaining: int)
    returns (o: Outcome, ws': seq<seq<StoreProduct>>, items': seq<StoreProduct>, cache': seq<Payload>,
             loc': Location, remaining': int)
    requires Fits(s) && Progress(s, ws0, items0, c0, orderId, ws, items, cache, remaining)
    requires k < |items| && items[k].available > 0
    ensures o == Pass || o == Fail(NoWarehouseWithStock)
    ensures o == Pass ==>
      && Progress(s, ws0, items0, c0, orderId, ws', items', cache', remaining')
      && |items'| == |items| && 0 <= items'[k].available < items[k].available
      && forall j :: 0 <= j < |items| && j != k ==> items'[j] == items[j]
    ensures o.Fail? <==> forall w :: 0 <= w < |ws| ==> Availability(ws, items[k].product.id)[w] <= 0
    ensures var c := Closest(Availability(ws, items[k].product.id), Costs(s.sites, loc, dest), |ws|);
      && (o.Fail? <==> c.None?)
      && (c.Some? ==> Draft(ws', items', cache', loc', remaining') == Take(s, orderId, k, c.value, ws, items, cache, remaining))
  {
    o, ws', items', cache', loc', remaining' := Pass, ws, items, cache, loc, remaining;
    var p := items[k].product;
    var choice := Closest(Availability(ws, p.id), Costs(s.sites, loc, dest), |ws|);
    if choice.None? {
      o := Fail(NoWarehouseWithStock);
      return;
    }
    ws', items', cache', loc', remaining' := BookAt(s, ws0, items0, c0, orderId, k, choice.value, ws, items, cache, remaining);
  }

  /** BookOnce at warehouse `w`, which holds the product: `q = min(need,
      stock, room / weight)` units move to reserved in both ledgers, the drone
      is imagined at `w`, the room falls by their weight and the item joins
      the open payload (Take). Progress holds and the other entries are left
      alone. */
  method BookAt(s: Setting, ghost ws0: seq<seq<StoreProduct>>, ghost items0: seq<StoreProduct>,
                ghost c0: seq<Payload>, orderId: int, k: nat, w: nat,
                ws: seq<seq<StoreProduct>>, items: seq<StoreProduct>, cache: seq<Payload>, remaining: int)
    returns (ws': seq<seq<StoreProduct>>, items': seq<StoreProduct>, cache': seq<Payload>,
             loc': Location, remaining': int)
    requires Fits(s) && Progress(s, ws0, items0, c0, orderId, ws, items, cache, remaining)
    requires k < |items| && items[k].available > 0
    requires w < |ws| && Availability(ws, items[k].product.id)[w] > 0
    ensures Progress(s, ws0, items0, c0, orderId, ws', items', cache', remaining')
    ensures |items'| == |items| && 0 <= items'[k].available < items[k].available
    ensures forall j :: 0 <= j < |items| && j != k ==> items'[j] == items[j]
    ensures var p := items[k].product;
      var r := Room(s, remaining, p);
      var q := Min3(items[k].available, ws[w][p.id].available, r / p.weight);
      && 0 < q
      && ws' == ws[w := Adjust(ws[w], p.id, -q, q)]
      && items' == Adjust(items, k, -q, q)
      && loc' == s.sites[w] && remaining' == r - q * p.weight
      && cache' == AddItem(Opened(cache, remaining, p, orderId), PayloadItem(w, p, q))
    ensures Draft(ws', items', cache', loc', remaining') == Take(s, orderId, k, w, ws, items, cache, remaining)
  {
    StepAccounts(s, ws0, items0, c0, orderId, ws, items, cache, remaining, k, w);
    StepPacking(s, c0, orderId, ws, items, cache, remaining, k, w);
    ws', items', loc', remaining', cache' := BookOnce(s, ws, items, k, orderId, w, remaining, cache);
    assert Accounts(s, ws0, items0, c0, orderId, ws', items', cache');
    assert Packing(s, c0, orderId, cache', remaining');
  }

  /** Nothing of the order is outstanding. */
  predicate Settled(items: seq<StoreProduct>)
  {
    forall j :: 0 <= j < |items| ==> items[j].available == 0
  }

  /** Progress holds when an order is taken up, with no trip open. */
  lemma ProgressStart(s: Setting, ws: seq<seq<StoreProduct>>, items: seq<StoreProduct>, cache: seq<Payload>,
                      orderId: int)
    requires Stocks(ws, s) && OrderLedger(items, s.catalog) && AllPacked(cache, s)
    ensures Progress(s, ws, items, cache, orderId, ws, items, cache, 0)
  {
    assert cache[..|cache|] == cache;
    if cache != [] {
      assert Packed(cache[|cache| - 1], s);
    }
  }

  /** Each entry at the positions `idx` booked in turn from state `d`, or none
      when the booking of one of them fails. */
  ghost function EntriesOf(s: Setting, orderId: int, dest: Location, idx: seq<nat>, d: Draft): (r: Option<Draft>)
    requires Workable(s, d.ws, d.items, d.cache, d.remaining)
    requires forall m :: 0 <= m < |idx| ==> idx[m] < |d.items|
    ensures r.Some? ==> Workable(s, r.value.ws, r.value.items, r.value.cache, r.value.remaining)
    ensures r.Some? ==> |r.value.items| == |d.items|
    ensures r.Some? ==> forall m :: 0 <= m < |idx| ==> r.value.items[idx[m]].available == 0
    ensures r.Some? ==> forall j :: 0 <= j < |d.items| && j !in idx ==> r.value.items[j] == d.items[j]
    decreases |idx|
  {
    if idx == [] then Some(d)
    else
      var first := EntryOf(s, orderId, dest, idx[0], d);
      if first.None? then None
      else
        var r := EntriesOf(s, orderId, dest, idx[1..], first.value);
        assert r.Some? ==> forall m :: 0 <= m < |idx| ==> r.value.items[idx[m]].available == 0 by {
          if r.Some? {
            forall m | 0 <= m < |idx|
              ensures r.value.items[idx[m]].available == 0
            {
              if m > 0 {
                assert idx[m] == idx[1..][m - 1];
              } else if idx[0] in idx[1..] {
                var n :| 0 <= n < |idx[1..]| && idx[1..][n] == idx[0];
              }
            }
          }
        }
        r
  }

  /** EntriesOf from position `i` of `idx` is EntryOf for that entry followed
      by EntriesOf from position `i + 1`. */
  lemma EntriesStep(s: Setting, orderId: int, dest: Location, idx: seq<nat>, i: nat, d: Draft)
    requires Workable(s, d.ws, d.items, d.cache, d.remaining)
    requires forall m :: 0 <= m < |idx| ==> idx[m] < |d.items|
    requires i < |idx|
    ensures var e := EntryOf(s, orderId, dest, idx[i], d);
      && (e.None? ==> EntriesOf(s, orderId, dest, idx[i..], d).None?)
      && (e.Some? ==> EntriesOf(s, orderId, dest, idx[i..], d) == EntriesOf(s, orderId, dest, idx[i + 1..], e.value))
  {
    assert idx[i..][0] == idx[i] && idx[i..][1..] == idx[i + 1..];
  }

  /** The booking of an order with ledger `items` at `dest` from warehouse
      ledgers `ws` and payloads `cache`: the drone imagined at the order with
      no room left, and every entry with something outstanding booked in
      stored order. None when the planner throws; otherwise nothing of the
      order is outstanding. */
  ghost function OrderOf(s: Setting, orderId: int, dest: Location, ws: seq<seq<StoreProduct>>,
                         items: seq<StoreProduct>, cache: seq<Payload>): (r: Option<Draft>)
    requires Fits(s) && Stocks(ws, s) && OrderLedger(items, s.catalog)
    ensures r.Some? ==> Stocks(r.value.ws, s) && OrderLedger(r.value.items, s.catalog)
    ensures r.Some? ==> |r.value.items| == |items| && Settled(r.value.items)
  {
    var idx := Indices(items, HasAvailable);
    var r := EntriesOf(s, orderId, dest, idx, Draft(ws, items, cache, dest, 0));
    assert r.Some? ==> Settled(r.value.items) by {
      if r.Some? {
        forall j | 0 <= j < |items|
          ensures r.value.items[j].available == 0
        {
          if Holds(HasAvailable, items[j]) {
            var m :| 0 <= m < |idx| && idx[m] == j;
          }
        }
      }
    }
    r
  }

  /** The body of `forEach { order -> ... }` for order `orderId` with ledger
      `items`, whose site is `dest`: the drone is imagined at the order with
      no room left, and every entry outstanding when the order is taken up is
      booked in turn, in stored order. On success nothing of the order is
      outstanding: every unit it lacked is on a payload added for it, every
      unit taken from a warehouse is on one of those payloads, and no other
      order has gained a unit. The result is OrderOf, which fails exactly when
      some entry finds no warehouse with stock. */
  method PlanOrder(s: Setting, orderId: int, dest: Location, ws: seq<seq<StoreProduct>>, items: seq<StoreProduct>,
                   cache: seq<Payload>)
    returns (o: Outcome, ws': seq<seq<StoreProduct>>, items': seq<StoreProduct>, cache': seq<Payload>)
    requires Fits(s) && Stocks(ws, s) && OrderLedger(items, s.catalog) && AllPacked(cache, s)
    ensures o == Pass || o == Fail(NoWarehouseWithStock)
    ensures o == Pass ==>
      && Accounts(s, ws, items, cache, orderId, ws', items', cache') && AllPacked(cache', s)
      && Appended(cache, cache', orderId) && Settled(items')
    ensures var r := OrderOf(s, orderId, dest, ws, items, cache);
      && (o == Pass <==> r.Some?)
      && (o == Pass ==> ws' == r.value.ws && items' == r.value.items && cache' == r.value.cache)
  {
    var idx := Indices(items, HasAvailable);
    var loc, remaining := dest, 0;
    ProgressStart(s, ws, items, cache, orderId);
    o, ws', items', cache' := Pass, ws, items, cache;
    ghost var start := Draft(ws, items, cache, dest, 0);
    var i := 0;
    while i < |idx|
      invariant 0 <= i <= |idx| && o == Pass
      invariant Progress(s, ws, items, cache, orderId, ws', items', cache', remaining)
      invariant |items'| == |items|
      invariant EntriesOf(s, orderId, dest, idx, start)
             == EntriesOf(s, orderId, dest, idx[i..], Draft(ws', items', cache', loc, remaining))
    {
      var k := idx[i];
      EntriesStep(s, orderId, dest, idx, i, Draft(ws', items', cache', loc, remaining));
      o, ws', items', cache', loc, remaining := BookEntry(s, ws, items, cache, orderId, dest, k, ws', items', cache', loc, remaining);
      if o != Pass {
        return;
      }
      i := i + 1;
    }
  }

  /** Two stretches of withdrawals make one. */
  lemma DrewTrans(s: Setting, ws0: seq<seq<StoreProduct>>, ws1: seq<seq<StoreProduct>>, ws2: seq<seq<StoreProduct>>,
                  c0: seq<Payload>, c1: seq<Payload>, c2: seq<Payload>)
    requires Drew(ws0, ws1, c0, c1, s) && Drew(ws1, ws2, c1, c2, s)
    ensures Drew(ws0, ws2, c0, c2, s)
  {
  }

  /** Two stretches of bookings for the same order make one. */
  lemma BookingTrans(items0: seq<StoreProduct>, items1: seq<StoreProduct>, items2: seq<StoreProduct>,
                     c0: seq<Payload>, c1: seq<Payload>, c2: seq<Payload>, orderId: int)
    requires Booking(items0, items1, c0, c1, orderId) && Booking(items1, items2, c1, c2, orderId)
    ensures Booking(items0, items2, c0, c2, orderId)
  {
    forall k | 0 <= k < |items2|
      ensures Transferred(items0[k], items2[k],
                          Booked(c2, orderId, items0[k].product.id) - Booked(c0, orderId, items0[k].product.id))
    {
      assert items1[k].product == items0[k].product;
    }
  }

  /** Payloads that book nothing for an order leave its Booking as it was. */
  lemma BookingOthers(items0: seq<StoreProduct>, items: seq<StoreProduct>, c0: seq<Payload>, c1: seq<Payload>,
                      c2: seq<Payload>, orderId: int, other: int)
    requires Booking(items0, items, c0, c1, orderId) && KeepsOthers(c1, c2, other) && other != orderId
    ensures Booking(items0, items, c0, c2, orderId)
  {
    forall k | 0 <= k < |items|
      ensures Booked(c2, orderId, items0[k].product.id) == Booked(c1, orderId, items0[k].product.id)
    {
    }
  }

  /** The order ledgers, ids and sites of the orders to plan, side by side. */
  predicate Planned(s: Setting, os: seq<seq<StoreProduct>>, ids: seq<int>, dests: seq<Location>)
  {
    && |os| == |ids| == |dests|
    && (forall i :: 0 <= i < |os| ==> OrderLedger(os[i], s.catalog))
    && forall i, j :: 0 <= i < j < |ids| ==> ids[i] != ids[j]
  }

  /** What AllOf demands of the state it starts from. */
  ghost predicate Plannable(s: Setting, ws: seq<seq<StoreProduct>>, os: seq<seq<StoreProduct>>, ids: seq<int>,
                            dests: seq<Location>, rank: seq<nat>)
  {
    Fits(s) && Stocks(ws, s) && Planned(s, os, ids, dests) && forall n :: 0 <= n < |rank| ==> rank[n] < |os|
  }

  /** What planning the orders leaves: the warehouse ledgers, the order
      ledgers and the payloads. */
  datatype Schedule = Schedule(ws: seq<seq<StoreProduct>>, os: seq<seq<StoreProduct>>, cache: seq<Payload>)

  /** The orders at the positions `rank` planned in turn by OrderOf from
      warehouse ledgers `ws`, order ledgers `os` and payloads `cache`, or none
      when the planner throws for one of them. */
  ghost function AllOf(s: Setting, ws: seq<seq<StoreProduct>>, os: seq<seq<StoreProduct>>, ids: seq<int>,
                       dests: seq<Location>, rank: seq<nat>, cache: seq<Payload>): (r: Option<Schedule>)
    requires Fits(s) && Stocks(ws, s) && Planned(s, os, ids, dests)
    requires forall m :: 0 <= m < |rank| ==> rank[m] < |os|
    ensures r.Some? ==> Stocks(r.value.ws, s) && Planned(s, r.value.os, ids, dests)
    decreases |rank|
  {
    if rank == [] then Some(Schedule(ws, os, cache))
    else
      var i := rank[0];
      var d := OrderOf(s, ids[i], dests[i], ws, os[i], cache);
      if d.None? then None
      else AllOf(s, d.value.ws, os[i := d.value.items], ids, dests, rank[1..], d.value.cache)
  }

  /** An order that AllOf does not take up, and that has nothing
      outstanding, still has nothing outstanding after it. */
  lemma {:induction false} AllOfKeeps(s: Setting, ws: seq<seq<StoreProduct>>, os: seq<seq<StoreProduct>>, ids: seq<int>,
                                      dests: seq<Location>, rank: seq<nat>, cache: seq<Payload>, i: nat)
    requires Fits(s) && Stocks(ws, s) && Planned(s, os, ids, dests)
    requires forall m :: 0 <= m < |rank| ==> rank[m] < |os|
    requires i < |os| && Settled(os[i])
    ensures var r := AllOf(s, ws, os, ids, dests, rank, cache); r.Some? ==> Settled(r.value.os[i])
    decreases |rank|
  {
    if rank != [] {
      var x := rank[0];
      var d := OrderOf(s, ids[x], dests[x], ws, os[x], cache);
      if d.Some? {
        AllOfKeeps(s, d.value.ws, os[x := d.value.items], ids, dests, rank[1..], d.value.cache, i);
      }
    }
  }

  /** When AllOf succeeds, no order it takes up has anything outstanding. */
  lemma {:induction false} AllOfSettled(s: Setting, ws: seq<seq<StoreProduct>>, os: seq<seq<StoreProduct>>,
                                        ids: seq<int>, dests: seq<Location>, rank: seq<nat>, cache: seq<Payload>)
    requires Fits(s) && Stocks(ws, s) && Planned(s, os, ids, dests)
    requires forall m :: 0 <= m < |rank| ==> rank[m] < |os|
    ensures var r := AllOf(s, ws, os, ids, dests, rank, cache);
      r.Some? ==> forall m :: 0 <= m < |rank| ==> Settled(r.value.os[rank[m]])
    decreases |rank|
  {
    var r := AllOf(s, ws, os, ids, dests, rank, cache);
    if rank != [] && r.Some? {
      var i := rank[0];
      var d := OrderOf(s, ids[i], dests[i], ws, os[i], cache);
      var os1 := os[i := d.value.items];
      AllOfSettled(s, d.value.ws, os1, ids, dests, rank[1..], d.value.cache);
      AllOfKeeps(s, d.value.ws, os1, ids, dests, rank[1..], d.value.cache, i);
      forall m | 0 <= m < |rank|
        ensures Settled(r.value.os[rank[m]])
      {
        if m > 0 {
          assert rank[m] == rank[1..][m - 1];
        }
      }
    }
  }

  /** AllOf from position `m` of `rank` is OrderOf for that order followed by
      AllOf from position `m + 1`. */
  lemma AllStep(s: Setting, ws: seq<seq<StoreProduct>>, os: seq<seq<StoreProduct>>, ids: seq<int>,
                dests: seq<Location>, rank: seq<nat>, m: nat, cache: seq<Payload>)
    requires Fits(s) && Stocks(ws, s) && Planned(s, os, ids, dests)
    requires forall n :: 0 <= n < |rank| ==> rank[n] < |os|
    requires m < |rank|
    ensures var i := rank[m];
      var d := OrderOf(s, ids[i], dests[i], ws, os[i], cache);
      && (d.None? ==> AllOf(s, ws, os, ids, dests, rank[m..], cache).None?)
      && (d.Some? ==> AllOf(s, ws, os, ids, dests, rank[m..], cache)
                      == AllOf(s, d.value.ws, os[i := d.value.items], ids, dests, rank[m + 1..], d.value.cache))
  {
    assert rank[m..][0] == rank[m] && rank[m..][1..] == rank[m + 1..];
  }

  /** Units of product `pid` available across the warehouse ledgers. */
  function Supply(ws: seq<seq<StoreProduct>>, pid: int): int
  {
    if ws == [] then 0 else Supply(ws[..|ws| - 1], pid) + StockOf(ws[|ws| - 1], pid)
  }

  /** Units of product `pid` an order ledger has outstanding. */
  function Need(items: seq<StoreProduct>, pid: int): int
  {
    if items == [] then 0
    else
      var last := items[|items| - 1];
      Need(items[..|items| - 1], pid) + (if last.product.id == pid then last.available else 0)
  }

  /** Units of product `pid` the order ledgers have outstanding. */
  function Demand(os: seq<seq<StoreProduct>>, pid: int): int
  {
    if os == [] then 0 else Demand(os[..|os| - 1], pid) + Need(os[|os| - 1], pid)
  }

  /** For every product, the warehouses hold at least what the orders lack. */
  ghost predicate Enough(ws: seq<seq<StoreProduct>>, os: seq<seq<StoreProduct>>)
  {
    forall pid :: Demand(os, pid) <= Supply(ws, pid)
  }

  /** In a ledger whose entries sit at their product ids, the stock of a
      product is the entry at its id, and nothing for an unknown id. */
  lemma StockAt(items: seq<StoreProduct>, pid: int)
    requires forall j :: 0 <= j < |items| ==> items[j].product.id == j
    ensures StockOf(items, pid) == if 0 <= pid < |items| then items[pid].available else 0
  {
    if 0 <= pid < |items| {
      assert items[pid].product.id == pid;
    }
  }

  /** Moving `q` units of product `id` from available to reserved in a
      warehouse ledger lowers its stock of that product by `q`, and of no other. */
  lemma StockAdjust(items: seq<StoreProduct>, catalog: seq<Product>, id: nat, q: int, pid: int)
    requires WellFormedCatalog(catalog) && WarehouseStock(items, catalog) && id < |items|
    ensures StockOf(Adjust(items, id, -q, q), pid) == StockOf(items, pid) - (if pid == id then q else 0)
  {
    StockAt(items, pid);
    StockAt(Adjust(items, id, -q, q), pid);
  }

  /** Replacing one warehouse ledger changes the supply by the difference. */
  lemma {:induction false} SupplyUpdate(ws: seq<seq<StoreProduct>>, w: nat, x: seq<StoreProduct>, pid: int)
    requires w < |ws|
    ensures Supply(ws[w := x], pid) == Supply(ws, pid) - StockOf(ws[w], pid) + StockOf(x, pid)
    decreases |ws|
  {
    var n := |ws| - 1;
    if w < n {
      assert ws[w := x][..n] == ws[..n][w := x];
      SupplyUpdate(ws[..n], w, x, pid);
    } else {
      assert ws[w := x][..n] == ws[..n];
    }
  }

  /** Warehouses none of which has the product supply none of it. */
  lemma {:induction false} SupplyNone(ws: seq<seq<StoreProduct>>, pid: int)
    requires forall w :: 0 <= w < |ws| ==> Availability(ws, pid)[w] <= 0
    ensures Supply(ws, pid) <= 0
    decreases |ws|
  {
    if ws != [] {
      var n := |ws| - 1;
      assert forall w :: 0 <= w < n ==> Availability(ws[..n], pid)[w] == Availability(ws, pid)[w];
      SupplyNone(ws[..n], pid);
    }
  }

  /** Well-formed warehouse ledgers never supply less than nothing. */
  lemma {:induction false} SupplyNonNegative(ws: seq<seq<StoreProduct>>, s: Setting, pid: int)
    requires Stocks(ws, s)
    ensures Supply(ws, pid) >= 0
    decreases |ws|
  {
    if ws != [] {
      var n := |ws| - 1;
      assert Stocks(ws[..n], s.(sites := s.sites[..n]));
      SupplyNonNegative(ws[..n], s.(sites := s.sites[..n]), pid);
      assert NonNegative(ws[n]);
    }
  }

  /** Moving units of entry `k` changes the order's need of that entry's
      product by the change in its available count, and of no other. */
  lemma {:induction false} NeedAdjust(items: seq<StoreProduct>, k: nat, d: int, e: int, pid: int)
    requires k < |items|
    ensures Need(Adjust(items, k, d, e), pid) == Need(items, pid) + (if items[k].product.id == pid then d else 0)
    decreases |items|
  {
    var n := |items| - 1;
    var a := Adjust(items, k, d, e);
    if k < n {
      assert a[..n] == Adjust(items[..n], k, d, e);
      NeedAdjust(items[..n], k, d, e, pid);
    } else {
      assert a[..n] == items[..n];
    }
  }

  /** With no negative count, an order needs of a product at least what any
      one entry of it lacks, and never less than nothing. */
  lemma {:induction false} NeedAtLeast(items: seq<StoreProduct>, pid: int)
    requires NonNegative(items)
    ensures Need(items, pid) >= 0
    ensures forall k :: 0 <= k < |items| && items[k].product.id == pid ==> Need(items, pid) >= items[k].available
    decreases |items|
  {
    if items != [] {
      var n := |items| - 1;
      NeedAtLeast(items[..n], pid);
      assert forall k :: 0 <= k < n ==> items[..n][k] == items[k];
    }
  }

  /** A settled order needs nothing. */
  lemma {:induction false} NeedSettled(items: seq<StoreProduct>, pid: int)
    requires Settled(items)
    ensures Need(items, pid) == 0
    decreases |items|
  {
    if items != [] {
      NeedSettled(items[..|items| - 1], pid);
    }
  }

  /** Replacing one order ledger changes the demand by the difference. */
  lemma {:induction false} DemandUpdate(os: seq<seq<StoreProduct>>, i: nat, x: seq<StoreProduct>, pid: int)
    requires i < |os|
    ensures Demand(os[i := x], pid) == Demand(os, pid) - Need(os[i], pid) + Need(x, pid)
    decreases |os|
  {
    var n := |os| - 1;
    if i < n {
      assert os[i := x][..n] == os[..n][i := x];
      DemandUpdate(os[..n], i, x, pid);
    } else {
      assert os[i := x][..n] == os[..n];
    }
  }

  /** With no negative count, the orders together need at least what one of them needs. */
  lemma {:induction false} DemandAtLeast(os: seq<seq<StoreProduct>>, i: nat, pid: int)
    requires forall j :: 0 <= j < |os| ==> NonNegative(os[j])
    requires i < |os|
    ensures Demand(os, pid) >= Need(os[i], pid)
    decreases |os|
  {
    var n := |os| - 1;
    NeedAtLeast(os[n], pid);
    if i < n {
      DemandAtLeast(os[..n], i, pid);
    } else if n > 0 {
      DemandNonNegative(os[..n], pid);
    }
  }

  /** With no negative count, the orders never demand less than nothing. */
  lemma {:induction false} DemandNonNegative(os: seq<seq<StoreProduct>>, pid: int)
    requires forall j :: 0 <= j < |os| ==> NonNegative(os[j])
    ensures Demand(os, pid) >= 0
    decreases |os|
  {
    if os != [] {
      NeedAtLeast(os[|os| - 1], pid);
      DemandNonNegative(os[..|os| - 1], pid);
    }
  }

  /** Settled orders demand nothing. */
  lemma {:induction false} DemandSettled(os: seq<seq<StoreProduct>>, pid: int)
    requires forall j :: 0 <= j < |os| ==> Settled(os[j])
    ensures Demand(os, pid) == 0
    decreases |os|
  {
    if os != [] {
      NeedSettled(os[|os| - 1], pid);
      DemandSettled(os[..|os| - 1], pid);
    }
  }

  /** A pass takes from the warehouses exactly the units it books for the
      order, so supply less need is the same for every product. */
  lemma TakeGap(s: Setting, orderId: int, k: nat, w: nat, ws: seq<seq<StoreProduct>>, items: seq<StoreProduct>,
                cache: seq<Payload>, remaining: int, pid: int)
    requires Workable(s, ws, items, cache, remaining) && k < |items| && items[k].available > 0
    requires w < |ws| && Availability(ws, items[k].product.id)[w] > 0
    ensures var r := Take(s, orderId, k, w, ws, items, cache, remaining);
      Supply(r.ws, pid) - Need(r.items, pid) == Supply(ws, pid) - Need(items, pid)
  {
    TakeFacts(s, orderId, k, w, ws, items, cache, remaining);
    var p := items[k].product;
    var room := Room(s, remaining, p);
    var q := Min3(items[k].available, ws[w][p.id].available, room / p.weight);
    var r := Take(s, orderId, k, w, ws, items, cache, remaining);
    assert r.ws == ws[w := Adjust(ws[w], p.id, -q, q)] && r.items == Adjust(items, k, -q, q);
    SupplyUpdate(ws, w, Adjust(ws[w], p.id, -q, q), pid);
    StockAdjust(ws[w], s.catalog, p.id, q, pid);
    NeedAdjust(items, k, -q, q, pid);
  }

  /** Booking an entry keeps supply less need for every product; when it
      fails, some product is needed beyond what the warehouses hold. */
  lemma {:induction false} EntryGap(s: Setting, orderId: int, dest: Location, k: nat, d: Draft)
    requires Workable(s, d.ws, d.items, d.cache, d.remaining) && k < |d.items|
    ensures var r := EntryOf(s, orderId, dest, k, d);
      && (r.Some? ==> forall pid :: Supply(r.value.ws, pid) - Need(r.value.items, pid) == Supply(d.ws, pid) - Need(d.items, pid))
      && (r.None? ==> exists pid :: Supply(d.ws, pid) < Need(d.items, pid))
    decreases d.items[k].available
  {
    if d.items[k].available != 0 {
      var pid0 := d.items[k].product.id;
      var next := PassOf(s, orderId, dest, k, d);
      if next.None? {
        SupplyNone(d.ws, pid0);
        NeedAtLeast(d.items, pid0);
        assert Supply(d.ws, pid0) < Need(d.items, pid0);
      } else {
        var c := Closest(Availability(d.ws, pid0), Costs(s.sites, d.loc, dest), |d.ws|);
        forall pid
          ensures Supply(next.value.ws, pid) - Need(next.value.items, pid) == Supply(d.ws, pid) - Need(d.items, pid)
        {
          TakeGap(s, orderId, k, c.value, d.ws, d.items, d.cache, d.remaining, pid);
        }
        EntryGap(s, orderId, dest, k, next.value);
        var r := EntryOf(s, orderId, dest, k, next.value);
        if r.None? {
          var pid :| Supply(next.value.ws, pid) < Need(next.value.items, pid);
          assert Supply(d.ws, pid) < Need(d.items, pid);
        }
      }
    }
  }

  /** EntryGap for the entries at the positions `idx`, booked in turn. */
  lemma {:induction false} EntriesGap(s: Setting, orderId: int, dest: Location, idx: seq<nat>, d: Draft)
    requires Workable(s, d.ws, d.items, d.cache, d.remaining)
    requires forall m :: 0 <= m < |idx| ==> idx[m] < |d.items|
    ensures var r := EntriesOf(s, orderId, dest, idx, d);
      && (r.Some? ==> forall pid :: Supply(r.value.ws, pid) - Need(r.value.items, pid) == Supply(d.ws, pid) - Need(d.items, pid))
      && (r.None? ==> exists pid :: Supply(d.ws, pid) < Need(d.items, pid))
    decreases |idx|
  {
    if idx != [] {
      EntryGap(s, orderId, dest, idx[0], d);
      var first := EntryOf(s, orderId, dest, idx[0], d);
      if first.Some? {
        EntriesGap(s, orderId, dest, idx[1..], first.value);
        var r := EntriesOf(s, orderId, dest, idx[1..], first.value);
        if r.None? {
          var pid :| Supply(first.value.ws, pid) < Need(first.value.items, pid);
          assert Supply(d.ws, pid) < Need(d.items, pid);
        }
      }
    }
  }

  /** Planning an order keeps supply less its need for every product; when
      the planner throws, some product is needed beyond what the warehouses hold. */
  lemma OrderGap(s: Setting, orderId: int, dest: Location, ws: seq<seq<StoreProduct>>,
                 items: seq<StoreProduct>, cache: seq<Payload>)
    requires Fits(s) && Stocks(ws, s) && OrderLedger(items, s.catalog)
    ensures var r := OrderOf(s, orderId, dest, ws, items, cache);
      && (r.Some? ==> forall pid :: Supply(r.value.ws, pid) - Need(r.value.items, pid) == Supply(ws, pid) - Need(items, pid))
      && (r.None? ==> exists pid :: Supply(ws, pid) < Need(items, pid))
  {
    EntriesGap(s, orderId, dest, Indices(items, HasAvailable), Draft(ws, items, cache, dest, 0));
  }

  /** Planning the ranked orders keeps supply less demand for every product;
      when the planner throws, some product is demanded beyond what the
      warehouses hold. */
  lemma {:induction false} AllGap(s: Setting, ws: seq<seq<StoreProduct>>, os: seq<seq<StoreProduct>>, ids: seq<int>,
                                  dests: seq<Location>, rank: seq<nat>, cache: seq<Payload>)
    requires Plannable(s, ws, os, ids, dests, rank)
    ensures var r := AllOf(s, ws, os, ids, dests, rank, cache);
      && (r.Some? ==> forall pid :: Supply(r.value.ws, pid) - Demand(r.value.os, pid) == Supply(ws, pid) - Demand(os, pid))
      && (r.None? ==> exists pid :: Supply(ws, pid) < Demand(os, pid))
    decreases |rank|
  {
    if rank != [] {
      var i := rank[0];
      OrderGap(s, ids[i], dests[i], ws, os[i], cache);
      var d := OrderOf(s, ids[i], dests[i], ws, os[i], cache);
      if d.None? {
        var pid :| Supply(ws, pid) < Need(os[i], pid);
        DemandAtLeast(os, i, pid);
      } else {
        var os1 := os[i := d.value.items];
        forall pid
          ensures Supply(d.value.ws, pid) - Demand(os1, pid) == Supply(ws, pid) - Demand(os, pid)
        {
          DemandUpdate(os, i, d.value.items, pid);
        }
        AllGap(s, d.value.ws, os1, ids, dests, rank[1..], d.value.cache);
        var r := AllOf(s, d.value.ws, os1, ids, dests, rank[1..], d.value.cache);
        if r.None? {
          var pid :| Supply(d.value.ws, pid) < Demand(os1, pid);
          assert Supply(ws, pid) < Demand(os, pid);
        }
      }
    }
  }

  /** When every order is ranked, planning succeeds exactly when the
      warehouses hold, for every product, at least what the orders lack. */
  lemma AllOfEnough(s: Setting, ws: seq<seq<StoreProduct>>, os: seq<seq<StoreProduct>>, ids: seq<int>,
                    dests: seq<Location>, rank: seq<nat>)
    requires Plannable(s, ws, os, ids, dests, rank)
    requires forall i :: 0 <= i < |os| ==> i in rank
    ensures AllOf(s, ws, os, ids, dests, rank, []).Some? <==> Enough(ws, os)
  {
    AllGap(s, ws, os, ids, dests, rank, []);
    var r := AllOf(s, ws, os, ids, dests, rank, []);
    if r.Some? {
      AllOfSettled(s, ws, os, ids, dests, rank, []);
      forall j | 0 <= j < |r.value.os|
        ensures Settled(r.value.os[j])
      {
        assert j in rank;
        var m :| 0 <= m < |rank| && rank[m] == j;
      }
      forall pid
        ensures Demand(os, pid) <= Supply(ws, pid)
      {
        DemandSettled(r.value.os, pid);
        SupplyNonNegative(r.value.ws, s, pid);
      }
    }
  }

  /** The planning loop of `init`: the orders are taken up in the order
      `rank` gives, each one planned by PlanOrder. On success each order taken
      up has nothing outstanding; for every order, each unit that left its
      outstanding count is on a payload for it; each unit that left a
      warehouse's available count is on a payload; and every payload is ready
      for a drone. The result is AllOf. */
  method PlanAll(s: Setting, ws: seq<seq<StoreProduct>>, os: seq<seq<StoreProduct>>, ids: seq<int>,
                 dests: seq<Location>, rank: seq<nat>)
    returns (o: Outcome, ws': seq<seq<StoreProduct>>, os': seq<seq<StoreProduct>>, cache: seq<Payload>,
             ghost owner: seq<nat>)
    requires Fits(s) && Stocks(ws, s) && Planned(s, os, ids, dests)
    requires forall m :: 0 <= m < |rank| ==> rank[m] < |os|
    requires forall m, n :: 0 <= m < n < |rank| ==> rank[m] != rank[n]
    ensures o == Pass || o == Fail(NoWarehouseWithStock)
    ensures o == Pass ==>
      && Drew(ws, ws', [], cache, s) && AllPacked(cache, s) && |os'| == |os|
      && (forall i :: 0 <= i < |os| ==> OrderLedger(os'[i], s.catalog) && Booking(os[i], os'[i], [], cache, ids[i]))
      && (forall m :: 0 <= m < |rank| ==> Settled(os'[rank[m]]))
      && Grouped(cache, owner, ids, rank)
    ensures var r := AllOf(s, ws, os, ids, dests, rank, []);
      && (o == Pass <==> r.Some?)
      && (o == Pass ==> ws' == r.value.ws && os' == r.value.os && cache == r.value.cache)
  {
    o, ws', os', cache, owner := Pass, ws, os, [], [];
    var m := 0;
    while m < |rank|
      invariant 0 <= m <= |rank| && o == Pass
      invariant Drew(ws, ws', [], cache, s) && AllPacked(cache, s)
      invariant |os'| == |os| && Planned(s, os', ids, dests)
      invariant forall i :: 0 <= i < |os| ==> Booking(os[i], os'[i], [], cache, ids[i])
      invariant Grouped(cache, owner, ids, rank) && forall j :: 0 <= j < |owner| ==> owner[j] < m
      invariant AllOf(s, ws, os, ids, dests, rank, []) == AllOf(s, ws', os', ids, dests, rank[m..], cache)
    {
      var r := rank[m];
      var ws1, items1, cache1;
      AllStep(s, ws', os', ids, dests, rank, m, cache);
      o, ws1, items1, cache1 := PlanOrder(s, ids[r], dests[r], ws', os'[r], cache);
      if o != Pass {
        return;
      }
      PlanStep(s, ws, ws', ws1, os, os', items1, ids, cache, cache1, r);
      ghost var owner1 := owner + seq(|cache1| - |cache|, _ => m);
      GroupStep(cache, cache1, owner, owner1, ids, rank, m);
      ws', os', cache, owner := ws1, os'[r := items1], cache1, owner1;
      m := m + 1;
    }
    AllOfSettled(s, ws, os, ids, dests, rank, []);
  }

  /** The payloads come in runs, one run per order, in the order `rank` gives:
      payload `j` is for the order at position `owner[j]` of `rank`, and
      `owner` never goes down. */
  predicate Grouped(cache: seq<Payload>, owner: seq<nat>, ids: seq<int>, rank: seq<nat>)
  {
    && |owner| == |cache|
    && (forall j :: 0 <= j < |cache| ==> owner[j] < |rank| && rank[owner[j]] < |ids| && cache[j].order == ids[rank[owner[j]]])
    && forall i, j :: 0 <= i < j < |owner| ==> owner[i] <= owner[j]
  }

  /** Appending the payloads of the order at position `m` of `rank` keeps the runs. */
  lemma GroupStep(cache: seq<Payload>, cache1: seq<Payload>, owner: seq<nat>, owner1: seq<nat>, ids: seq<int>,
                  rank: seq<nat>, m: nat)
    requires Grouped(cache, owner, ids, rank) && forall j :: 0 <= j < |owner| ==> owner[j] < m
    requires m < |rank| && rank[m] < |ids| && Appended(cache, cache1, ids[rank[m]])
    requires owner1 == owner + seq(|cache1| - |cache|, _ => m)
    ensures Grouped(cache1, owner1, ids, rank) && forall j :: 0 <= j < |owner1| ==> owner1[j] <= m
  {
    forall j | 0 <= j < |cache1|
      ensures owner1[j] < |rank| && rank[owner1[j]] < |ids| && cache1[j].order == ids[rank[owner1[j]]]
    {
      if j < |cache| {
        assert cache1[j] == cache1[..|cache|][j];
      }
    }
  }

  /** Planning order `r` keeps the loop's accounts of every order. */
  lemma PlanStep(s: Setting, ws0: seq<seq<StoreProduct>>, ws: seq<seq<StoreProduct>>, ws1: seq<seq<StoreProduct>>,
                 os0: seq<seq<StoreProduct>>, os: seq<seq<StoreProduct>>, items1: seq<StoreProduct>, ids: seq<int>,
                 cache: seq<Payload>, cache1: seq<Payload>, r: nat)
    requires |os0| == |os| == |ids| && r < |os| && forall i, j :: 0 <= i < j < |ids| ==> ids[i] != ids[j]
    requires Drew(ws0, ws, [], cache, s)
    requires forall i :: 0 <= i < |os| ==> Booking(os0[i], os[i], [], cache, ids[i])
    requires Accounts(s, ws, os[r], cache, ids[r], ws1, items1, cache1)
    ensures Drew(ws0, ws1, [], cache1, s)
    ensures forall i :: 0 <= i < |os| ==> Booking(os0[i], os[r := items1][i], [], cache1, ids[i])
  {
    DrewTrans(s, ws0, ws, ws1, [], cache, cache1);
    forall i | 0 <= i < |os|
      ensures Booking(os0[i], os[r := items1][i], [], cache1, ids[i])
    {
      if i == r {
        BookingTrans(os0[r], os[r], items1, [], cache, cache1, ids[r]);
      } else {
        BookingOthers(os0[i], os[i], [], cache, cache1, ids[i], ids[r]);
      }
    }
  }

  /** Once an order has nothing outstanding, the payloads carry to it exactly
      the units it lacked, and each of its entries holds them as reserved. */
  lemma SettledBooked(items0: seq<StoreProduct>, items: seq<StoreProduct>, cache: seq<Payload>, orderId: int, k: nat)
    requires Booking(items0, items, [], cache, orderId) && Settled(items) && k < |items0|
    ensures Booked(cache, orderId, items0[k].product.id) == items0[k].available
    ensures items[k] == items0[k].(available := 0, reserved := items0[k].reserved + items0[k].available)
  {
    assert Transferred(items0[k], items[k], Booked(cache, orderId, items0[k].product.id) - Booked([], orderId, items0[k].product.id));
  }

  /** The planner's view of a model: the warehouse sites, the load limit and
      the product list. */
  function SettingOf(m: Model): (s: Setting)
    ensures |s.sites| == |m.warehouses| && forall i :: 0 <= i < |m.warehouses| ==> s.sites[i] == m.warehouses[i].loc
    ensures s.maxLoad == m.maxDroneLoad && s.catalog == m.products
  {
    Setting(seq(|m.warehouses|, i requires 0 <= i < |m.warehouses| => m.warehouses[i].loc), m.maxDroneLoad, m.products)
  }

  /** The ids of a list of stores. */
  function Ids(stores: seq<Store>): (r: seq<int>)
    ensures |r| == |stores| && forall i :: 0 <= i < |stores| ==> r[i] == stores[i].id
  {
    seq(|stores|, i requires 0 <= i < |stores| => stores[i].id)
  }

  /** The sites of a list of stores. */
  function Sites(stores: seq<Store>): (r: seq<Location>)
    ensures |r| == |stores| && forall i :: 0 <= i < |stores| ==> r[i] == stores[i].loc
  {
    seq(|stores|, i requires 0 <= i < |stores| => stores[i].loc)
  }

  /** `getOutstandingItems().size` of each order ledger: the sort key of `init`. */
  function Counts(os: seq<seq<StoreProduct>>): (r: seq<int>)
    ensures |r| == |os| && forall i :: 0 <= i < |os| ==> r[i] == |OutstandingItems(os[i])|
  {
    seq(|os|, i requires 0 <= i < |os| => |OutstandingItems(os[i])|)
  }

  /** A stable-sort listing names each position once. */
  lemma OrderedDistinct(r: seq<nat>, keys: seq<int>)
    requires Ordered(r, keys)
    ensures forall m, n :: 0 <= m < n < |r| ==> r[m] != r[n]
  {
    forall m, n | 0 <= m < n < |r|
      ensures r[m] != r[n]
    {
      assert Before(keys, r[m], r[n]);
    }
  }

  /** Pending orders are distinct orders of the model, so their ids differ. */
  lemma PendingIds(m: Model)
    requires m.Shape() && m.Pending()
    ensures forall i, j :: 0 <= i < j < |m.orders| ==> m.orders[i].id != m.orders[j].id
  {
    forall i, j | 0 <= i < j < |m.orders|
      ensures m.orders[i].id != m.orders[j].id
    {
      var a :| 0 <= a < |m.allOrders| && m.allOrders[a] == m.orders[i];
      var b :| 0 <= b < |m.allOrders| && m.allOrders[b] == m.orders[j];
    }
  }

  /** What `init` hands to PlanAll meets its demands, and every pending
      order is ranked. */
  lemma InitReady(m: Model, s: Setting, ws: seq<seq<StoreProduct>>, os: seq<seq<StoreProduct>>, ids: seq<int>,
                  rank: seq<nat>)
    requires m.Valid() && s == SettingOf(m)
    requires ws == Ledgers(m.warehouses) && os == Ledgers(m.orders) && ids == Ids(m.orders)
    requires rank == SortedBy(Counts(os))
    ensures Stocks(ws, s) && Planned(s, os, ids, Sites(m.orders))
    ensures forall n :: 0 <= n < |rank| ==> rank[n] < |os|
    ensures forall n, n' :: 0 <= n < n' < |rank| ==> rank[n] != rank[n']
  {
    PendingIds(m);
    OrderedDistinct(rank, Counts(os));
    forall i | 0 <= i < |os|
      ensures OrderLedger(os[i], s.catalog)
    {
      var a :| 0 <= a < |m.allOrders| && m.allOrders[a] == m.orders[i];
    }
  }

  /** After PlanAll: since every pending order was ranked, none has anything
      outstanding, and every payload is for an order of the model. */
  lemma InitDone(m: Model, os: seq<seq<StoreProduct>>, ids: seq<int>, rank: seq<nat>, cache: seq<Payload>,
                 owner: seq<nat>)
    requires m.Shape() && m.Pending() && ids == Ids(m.orders) && |os| == |m.orders|
    requires forall x :: x in rank <==> 0 <= x < |os|
    requires forall n :: 0 <= n < |rank| ==> rank[n] < |os| && Settled(os[rank[n]])
    requires Grouped(cache, owner, ids, rank)
    ensures forall i :: 0 <= i < |os| ==> Settled(os[i])
    ensures forall j :: 0 <= j < |cache| ==> 0 <= cache[j].order < |m.allOrders|
  {
    forall i | 0 <= i < |os|
      ensures Settled(os[i])
    {
      assert i in rank;
      var n :| 0 <= n < |rank| && rank[n] == i;
    }
    forall j | 0 <= j < |cache|
      ensures 0 <= cache[j].order < |m.allOrders|
    {
      var x := rank[owner[j]];
      var a :| 0 <= a < |m.allOrders| && m.allOrders[a] == m.orders[x];
    }
  }

  /** What a successful `init` leaves behind, from warehouse ledgers `ws0`
      and pending order ledgers `os0` to `ws` and `os`, with the orders ranked
      by `rank`: every unit that left a warehouse's available count is on a
      payload and now reserved there; every payload is ready for a drone; every
      pending order has nothing outstanding, and each unit it lacked is on a
      payload for it and now reserved at the order; and the payloads come in
      one run per order, in ranked order. */
  ghost predicate Reserved(s: Setting, ws0: seq<seq<StoreProduct>>, ws: seq<seq<StoreProduct>>,
                           os0: seq<seq<StoreProduct>>, os: seq<seq<StoreProduct>>, ids: seq<int>, rank: seq<nat>,
                           cache: seq<Payload>, owner: seq<nat>)
  {
    && Drew(ws0, ws, [], cache, s) && AllPacked(cache, s)
    && |os| == |os0| == |ids|
    && (forall i :: 0 <= i < |os| ==> Booking(os0[i], os[i], [], cache, ids[i]) && Settled(os[i]))
    && Grouped(cache, owner, ids, rank)
  }

  /** Writes the planned ledgers back into the model's warehouses; the model
      stays well formed. */
  method CommitWarehouses(m: Model, ws: seq<seq<StoreProduct>>)
    requires m.Valid() && Stocks(ws, SettingOf(m))
    modifies m.warehouses
    ensures m.Valid() && Ledgers(m.warehouses) == ws
  {
    WriteBack(m.warehouses, ws);
    assert m.Stocked();
  }

  /** Writes the planned ledgers back into the model's pending orders; the
      model stays well formed. */
  method CommitOrders(m: Model, os: seq<seq<StoreProduct>>)
    requires m.Valid()
    requires |os| == |m.orders| && forall i :: 0 <= i < |os| ==> OrderLedger(os[i], m.products)
    modifies m.orders
    ensures m.Valid() && Ledgers(m.orders) == os
    ensures Ledgers(m.warehouses) == old(Ledgers(m.warehouses))
  {
    WriteOrders(m, os);
    assert m.Shape() && m.Pending() && m.DronesReady();
  }

  /** WriteBack on the pending orders: every order ledger of the model stays
      well formed and the warehouses are not touched. */
  method WriteOrders(m: Model, os: seq<seq<StoreProduct>>)
    requires m.Valid()
    requires |os| == |m.orders| && forall i :: 0 <= i < |os| ==> OrderLedger(os[i], m.products)
    modifies m.orders
    ensures Ledgers(m.orders) == os
    ensures forall i :: 0 <= i < |m.allOrders| ==> OrderLedger(m.allOrders[i].items, m.products)
    ensures forall i :: 0 <= i < |m.warehouses| ==> m.warehouses[i].items == old(m.warehouses[i].items)
    ensures Ledgers(m.warehouses) == old(Ledgers(m.warehouses))
  {
    forall i | 0 <= i < |m.orders|
      ensures m.orders[i] !in m.warehouses
    {
      OrderIsNoWarehouse(m, m.orders[i]);
    }
    WriteBack(m.orders, os);
    forall i | 0 <= i < |m.allOrders|
      ensures OrderLedger(m.allOrders[i].items, m.products)
    {
      if m.allOrders[i] in m.orders {
        var j :| 0 <= j < |m.orders| && m.orders[j] == m.allOrders[i];
      }
    }
  }

  /** `init` on the ledgers: the pending orders, ranked by SortedBy on their
      outstanding entry counts, are planned by PlanAll. The planner throws
      exactly when, for some product, the warehouses hold fewer units than
      the pending orders lack (Enough). */
  method Plan(m: Model, ws0: seq<seq<StoreProduct>>, os0: seq<seq<StoreProduct>>)
    returns (o: Outcome, ws: seq<seq<StoreProduct>>, os: seq<seq<StoreProduct>>, cache: seq<Payload>,
             ghost rank: seq<nat>, ghost owner: seq<nat>)
    requires m.Valid() && Fits(SettingOf(m)) && ws0 == Ledgers(m.warehouses) && os0 == Ledgers(m.orders)
    ensures o == Pass || o == Fail(NoWarehouseWithStock)
    ensures rank == SortedBy(Counts(os0))
    ensures o == Pass ==>
      && Reserved(SettingOf(m), ws0, ws, os0, os, Ids(m.orders), rank, cache, owner)
      && Stocks(ws, SettingOf(m)) && (forall i :: 0 <= i < |os| ==> OrderLedger(os[i], m.products))
      && Ready(cache, SettingOf(m), |m.allOrders|)
    ensures o == Pass <==> Enough(ws0, os0)
    ensures Plannable(SettingOf(m), ws0, os0, Ids(m.orders), Sites(m.orders), rank)
    ensures var r := AllOf(SettingOf(m), ws0, os0, Ids(m.orders), Sites(m.orders), rank, []);
      && (o == Pass <==> r.Some?)
      && (o == Pass ==> ws == r.value.ws && os == r.value.os && cache == r.value.cache)
  {
    var s := SettingOf(m);
    var ids := Ids(m.orders);
    var ranked := SortedBy(Counts(os0));
    rank := ranked;
    InitReady(m, s, ws0, os0, ids, ranked);
    AllOfEnough(s, ws0, os0, ids, Sites(m.orders), ranked);
    o, ws, os, cache, owner := PlanAll(s, ws0, os0, ids, Sites(m.orders), ranked);
    if o != Pass {
      return;
    }
    InitDone(m, os, ids, rank, cache, owner);
  }

  /** The ledgers before and after `init`, the order ids, the ranking and
      the payloads with the position in the ranking of the order each is for. */
  datatype Prepared = Prepared(before: seq<seq<StoreProduct>>, after: seq<seq<StoreProduct>>,
                               pending: seq<seq<StoreProduct>>, settled: seq<seq<StoreProduct>>, ids: seq<int>,
                               rank: seq<nat>, cache: seq<Payload>, owner: seq<nat>)

  /** `p` starts from ledgers `ws0` and `os0` of the model's warehouses and
      pending orders, ranked by SortedBy on their outstanding entry counts. */
  ghost predicate Started(m: Model, ws0: seq<seq<StoreProduct>>, os0: seq<seq<StoreProduct>>, p: Prepared)
    reads m
  {
    && p.before == ws0 && p.pending == os0
    && p.ids == Ids(m.orders) && p.rank == SortedBy(Counts(p.pending))
    && Plannable(SettingOf(m), p.before, p.pending, p.ids, Sites(m.orders), p.rank)
  }

  /** What AllOf makes of the start `p` records, for the model's pending orders. */
  ghost function InitOf(m: Model, p: Prepared): Option<Schedule>
    reads m
    requires Started(m, p.before, p.pending, p)
  {
    AllOf(SettingOf(m), p.before, p.pending, p.ids, Sites(m.orders), p.rank, [])
  }

  /** The model's ledgers are those `p` ends with, which `init` reached as
      Reserved says; every payload is for an order of the model. */
  ghost predicate Finished(m: Model, p: Prepared)
    reads m, m.warehouses, m.orders
  {
    && Ledgers(m.warehouses) == p.after && Ledgers(m.orders) == p.settled
    && Reserved(SettingOf(m), p.before, p.after, p.pending, p.settled, p.ids, p.rank, p.cache, p.owner)
    && Ready(p.cache, SettingOf(m), |m.allOrders|)
  }

  /** Every payload is ready for a drone of the setting and is for one of the
      `orderCount` orders. */
  ghost predicate Ready(cache: seq<Payload>, s: Setting, orderCount: int)
  {
    && AllPacked(cache, s)
    && forall j :: 0 <= j < |cache| ==> 0 <= cache[j].order < orderCount
  }

  /** `init` on copies of the model's ledgers: plans without writing back.
      It fails exactly when the stock falls short (Enough); on success its
      result is InitOf. */
  method Prepare(m: Model, ws0: seq<seq<StoreProduct>>, os0: seq<seq<StoreProduct>>)
    returns (o: Outcome, ws: seq<seq<StoreProduct>>, os: seq<seq<StoreProduct>>, cache: seq<Payload>, ghost p: Prepared)
    requires m.Valid() && Fits(SettingOf(m)) && ws0 == Ledgers(m.warehouses) && os0 == Ledgers(m.orders)
    ensures o == Pass || o == Fail(NoWarehouseWithStock)
    ensures cache == p.cache
    ensures Started(m, ws0, os0, p)
    ensures o == Pass <==> Enough(ws0, os0)
    ensures o == Pass <==> InitOf(m, p).Some?
    ensures o == Pass ==> InitOf(m, p).value == Schedule(p.after, p.settled, p.cache)
    ensures o == Pass ==>
      && ws == p.after && os == p.settled
      && Stocks(ws, SettingOf(m)) && |os| == |m.orders| && (forall i :: 0 <= i < |os| ==> OrderLedger(os[i], m.products))
      && Reserved(SettingOf(m), p.before, p.after, p.pending, p.settled, p.ids, p.rank, p.cache, p.owner)
      && Ready(p.cache, SettingOf(m), |m.allOrders|)
  {
    ghost var rank, owner;
    o, ws, os, cache, rank, owner := Plan(m, ws0, os0);
    p := Prepared(ws0, ws, os0, os, Ids(m.orders), rank, cache, owner);
  }

  /** Writes planned ledgers back into the model's warehouses and pending
      orders; the model stays well formed. */
  method Commit(m: Model, ws: seq<seq<StoreProduct>>, os: seq<seq<StoreProduct>>)
    requires m.Valid() && Stocks(ws, SettingOf(m))
    requires |os| == |m.orders| && forall i :: 0 <= i < |os| ==> OrderLedger(os[i], m.products)
    modifies m.warehouses, m.orders
    ensures m.Valid() && Ledgers(m.warehouses) == ws && Ledgers(m.orders) == os
  {
    CommitWarehouses(m, ws);
    CommitOrders(m, os);
  }

  /** The end of `init`: the planned ledgers are written back and the
      payloads become the algorithm's cache. */
  method Install(alg: HeavyLiftingAlgorithm, ws: seq<seq<StoreProduct>>, os: seq<seq<StoreProduct>>, cache: seq<Payload>)
    requires alg.model.Valid() && Stocks(ws, SettingOf(alg.model))
    requires |os| == |alg.model.orders| && forall i :: 0 <= i < |os| ==> OrderLedger(os[i], alg.model.products)
    modifies alg, alg.model.warehouses, alg.model.orders
    ensures alg.model.Valid() && alg.cache == cache
    ensures Ledgers(alg.model.warehouses) == ws && Ledgers(alg.model.orders) == os
  {
    Commit(alg.model, ws, os);
    alg.cache := cache;
  }

  /** The drone's payload after Drone.reserve of each item in turn. */
  function ReserveItems(payload: seq<StoreProduct>, items: seq<PayloadItem>): seq<StoreProduct>
  {
    if items == [] then payload
    else
      var last := items[|items| - 1];
      PayloadReserve(ReserveItems(payload, items[..|items| - 1]), last.product, last.quantity)
  }

  /** Reserving a payload's items on a drone keeps the drone's payload
      well formed while the weight stays within capacity, and adds exactly the
      payload's units of every product. */
  lemma {:induction false} ReserveItemsEffect(payload: seq<StoreProduct>, weight: int, capacity: int,
                                              catalog: seq<Product>, items: seq<PayloadItem>)
    requires WellFormedCatalog(catalog) && PayloadOk(payload, weight, capacity, catalog)
    requires forall j :: 0 <= j < |items| ==> items[j].quantity >= 0 && Catalogued(items[j].product, catalog)
    requires weight + ItemsWeight(items) <= capacity
    ensures PayloadOk(ReserveItems(payload, items), weight + ItemsWeight(items), capacity, catalog)
    ensures forall id :: Held(ReserveItems(payload, items), id) == Held(payload, id) + Units(items, id)
  {
    if items != [] {
      var init, last := items[..|items| - 1], items[|items| - 1];
      ItemsWeightGrows(init, last);
      ReserveItemsEffect(payload, weight, capacity, catalog, init);
      ReserveEffect(ReserveItems(payload, init), weight + ItemsWeight(init), capacity, catalog,
                    last.product, last.quantity);
    }
  }

  /** Items of non-negative weight weigh at least as much as any one item and
      any prefix of them. */
  lemma ItemsWeightGrows(init: seq<PayloadItem>, last: PayloadItem)
    requires forall j :: 0 <= j < |init| ==> init[j].quantity >= 0 && init[j].product.weight >= 0
    ensures (init + [last])[..|init|] == init
    ensures ItemsWeight(init + [last]) == ItemsWeight(init) + last.quantity * last.product.weight
    ensures ItemsWeight(init) >= 0
  {
    assert (init + [last])[..|init|] == init;
    ItemsWeightNonNegative(init);
  }

  lemma {:induction false} ItemsWeightNonNegative(items: seq<PayloadItem>)
    requires forall j :: 0 <= j < |items| ==> items[j].quantity >= 0 && items[j].product.weight >= 0
    ensures ItemsWeight(items) >= 0
  {
    if items != [] {
      ItemsWeightNonNegative(items[..|items| - 1]);
    }
  }

  /** A prefix of items of non-negative weight weighs no more than the whole. */
  lemma {:induction false} PrefixWeight(items: seq<PayloadItem>, j: nat)
    requires j <= |items|
    requires forall k :: 0 <= k < |items| ==> items[k].quantity >= 0 && items[k].product.weight >= 0
    ensures ItemsWeight(items[..j]) <= ItemsWeight(items)
  {
    if j < |items| {
      var init, last := items[..|items| - 1], items[|items| - 1];
      assert init[..j] == items[..j];
      PrefixWeight(init, j);
      assert last.quantity * last.product.weight >= 0;
    } else {
      assert items[..j] == items;
    }
  }

  /** A Load of each item at its warehouse, in item order. */
  function LoadsOf(droneId: int, items: seq<PayloadItem>): seq<Command>
  {
    seq(|items|, j requires 0 <= j < |items| => Load(droneId, items[j].warehouse, items[j].product, items[j].quantity))
  }

  /** A Deliver of each item to order `order`, in item order. */
  function DeliversOf(droneId: int, order: int, items: seq<PayloadItem>): seq<Command>
  {
    seq(|items|, j requires 0 <= j < |items| => Deliver(droneId, order, items[j].product, items[j].quantity))
  }

  /** getCommandsFor's commands for a payload: the Loads, then the Delivers. */
  function TripCommands(droneId: int, p: Payload): seq<Command>
  {
    LoadsOf(droneId, p.items) + DeliversOf(droneId, p.order, p.items)
  }

  /** `load` picks up item `it` at its warehouse and `deliver` drops the same
      units at order `order`. */
  predicate Paired(load: Command, deliver: Command, it: PayloadItem, order: int)
  {
    && load.Load? && load.site == it.warehouse
    && deliver.Deliver? && deliver.site == order
    && load.product == deliver.product == it.product
    && load.quantity == deliver.quantity == it.quantity
  }

  /** A payload ready for a drone of setting `s` and for one of `orderCount`
      orders yields twice as many commands as it has items, each one a command
      the drone accepts whose site exists; the j-th Load and the j-th Deliver
      carry the j-th item, at least one unit. */
  lemma TripCommandsOk(droneId: int, p: Payload, s: Setting, orderCount: int)
    requires Packed(p, s) && 0 <= p.order < orderCount
    ensures |TripCommands(droneId, p)| == 2 * |p.items|
    ensures forall k :: 0 <= k < |TripCommands(droneId, p)| ==>
      var c := TripCommands(droneId, p)[k];
      Issued(c, droneId, s.catalog) && InRange(c, |s.sites|, orderCount) && c.quantity > 0
    ensures forall j :: 0 <= j < |p.items| ==>
      Paired(TripCommands(droneId, p)[j], TripCommands(droneId, p)[j + |p.items|], p.items[j], p.order)
  {
    var cs := TripCommands(droneId, p);
    var n := |p.items|;
    forall k | 0 <= k < |cs|
      ensures Issued(cs[k], droneId, s.catalog) && InRange(cs[k], |s.sites|, orderCount) && cs[k].quantity > 0
    {
      var j := if k < n then k else k - n;
      assert ItemOk(p.items[j], s);
    }
  }

  /** Taking one more item of a payload: one more reservation, its weight,
      one more Load and one more Deliver. */
  lemma ItemStep(droneId: int, payload: seq<StoreProduct>, p: Payload, j: nat)
    requires j < |p.items|
    ensures var it := p.items[j];
      && ReserveItems(payload, p.items[..j + 1]) == PayloadReserve(ReserveItems(payload, p.items[..j]), it.product, it.quantity)
      && ItemsWeight(p.items[..j + 1]) == ItemsWeight(p.items[..j]) + it.quantity * it.product.weight
      && LoadsOf(droneId, p.items[..j + 1]) == LoadsOf(droneId, p.items[..j]) + [Load(droneId, it.warehouse, it.product, it.quantity)]
      && DeliversOf(droneId, p.order, p.items[..j + 1]) == DeliversOf(droneId, p.order, p.items[..j]) + [Deliver(droneId, p.order, it.product, it.quantity)]
  {
    assert p.items[..j + 1][..j] == p.items[..j];
  }

  /** The items of a packed payload, and any prefix of them, are catalogued
      and carry no negative count. */
  lemma PackedItems(p: Payload, s: Setting, j: nat)
    requires Packed(p, s) && j <= |p.items|
    ensures forall k :: 0 <= k < j ==> p.items[..j][k].quantity >= 0 && Catalogued(p.items[..j][k].product, s.catalog)
  {
    forall k | 0 <= k < j
      ensures p.items[..j][k].quantity >= 0 && Catalogued(p.items[..j][k].product, s.catalog)
    {
      assert ItemOk(p.items[k], s);
    }
  }

  /** One step of ReservePayload: Drone.reserve of item `j`, the first `j`
      items being reserved already. */
  method ReserveNext(drone: Drone, p: Payload, j: nat, ghost s: Setting,
                     ghost payload0: seq<StoreProduct>, ghost weight0: int) returns (o: Outcome)
    requires Packed(p, s) && WellFormedCatalog(s.catalog) && j < |p.items|
    requires drone.payload == ReserveItems(payload0, p.items[..j])
    requires drone.totalWeight == weight0 + ItemsWeight(p.items[..j]) <= drone.capacity
    modifies drone
    ensures drone.commandQueue == old(drone.commandQueue) && drone.enqueued == old(drone.enqueued)
    ensures drone.location == old(drone.location)
    ensures drone.timeToCompleteActiveCommand == old(drone.timeToCompleteActiveCommand)
    ensures o == Pass ==>
      && drone.payload == ReserveItems(payload0, p.items[..j + 1])
      && drone.totalWeight == weight0 + ItemsWeight(p.items[..j + 1]) <= drone.capacity
    ensures o != Pass ==>
      && o == Fail(CapacityExceeded) && weight0 + ItemsWeight(p.items) > drone.capacity
      && drone.payload == old(drone.payload) && drone.totalWeight == old(drone.totalWeight)
  {
    var it := p.items[j];
    assert ItemOk(it, s);
    ItemStep(drone.id, payload0, p, j);
    o := drone.Reserve(it.product, it.quantity);
    if o != Pass {
      forall k | 0 <= k < |p.items|
        ensures p.items[k].quantity >= 0 && p.items[k].product.weight >= 0
      {
        assert ItemOk(p.items[k], s);
      }
      PrefixWeight(p.items, j + 1);
    }
  }

  /** The body of getCommandsFor once a payload is taken: each item is
      reserved on the drone in turn, which throws once the drone's weight would
      pass its capacity; on success the commands are the Loads of the items and
      then their Delivers. */
  method ReservePayload(drone: Drone, p: Payload, ghost s: Setting) returns (o: Outcome, commands: seq<Command>)
    requires drone.Valid() && Packed(p, s) && drone.catalog == s.catalog
    modifies drone
    ensures drone.Valid()
    ensures drone.commandQueue == old(drone.commandQueue) && drone.enqueued == old(drone.enqueued)
    ensures drone.location == old(drone.location)
    ensures drone.timeToCompleteActiveCommand == old(drone.timeToCompleteActiveCommand)
    ensures o == Pass <==> old(drone.totalWeight) + ItemsWeight(p.items) <= drone.capacity
    ensures o != Pass ==> o == Fail(CapacityExceeded) && commands == []
    ensures o == Pass ==>
      && commands == TripCommands(drone.id, p)
      && drone.payload == ReserveItems(old(drone.payload), p.items)
      && drone.totalWeight == old(drone.totalWeight) + ItemsWeight(p.items)
  {
    ghost var payload0, weight0 := drone.payload, drone.totalWeight;
    var loads, delivers := [], [];
    var j := 0;
    o := Pass;
    while j < |p.items| && o == Pass
      invariant 0 <= j <= |p.items|
      invariant drone.payload == ReserveItems(payload0, p.items[..j])
      invariant drone.totalWeight == weight0 + ItemsWeight(p.items[..j]) <= drone.capacity
      invariant drone.commandQueue == old(drone.commandQueue) && drone.enqueued == old(drone.enqueued)
      invariant drone.location == old(drone.location)
      invariant drone.timeToCompleteActiveCommand == old(drone.timeToCompleteActiveCommand)
      invariant loads == LoadsOf(drone.id, p.items[..j])
      invariant delivers == DeliversOf(drone.id, p.order, p.items[..j])
      invariant o == Pass || (o == Fail(CapacityExceeded) && weight0 + ItemsWeight(p.items) > drone.capacity)
      decreases |p.items| - j + (if o == Pass then 1 else 0)
    {
      var it := p.items[j];
      ItemStep(drone.id, payload0, p, j);
      o := ReserveNext(drone, p, j, s, payload0, weight0);
      if o == Pass {
        loads := loads + [Load(drone.id, it.warehouse, it.product, it.quantity)];
        delivers := delivers + [Deliver(drone.id, p.order, it.product, it.quantity)];
        j := j + 1;
      }
    }
    PackedItems(p, s, j);
    ReserveItemsEffect(payload0, weight0, drone.capacity, drone.catalog, p.items[..j]);
    if o != Pass {
      return o, [];
    }
    assert p.items[..j] == p.items;
    commands := loads + delivers;
  }

  /** GreedyHeavyLiftingAlgorithm: the payloads booked by `init`, handed out
      first in, first out. */
  class HeavyLiftingAlgorithm {
    const model: Model
    var cache: seq<Payload>

    /** Every payload is ready for a drone of the model and is for one of its orders. */
    ghost predicate Valid()
      reads this
    {
      Ready(cache, SettingOf(model), |model.allOrders|)
    }

    constructor (model: Model)
      ensures this.model == model && cache == [] && Valid()
    {
      this.model := model;
      cache := [];
    }

    /** init: the pending orders, ranked by SortedBy on their outstanding entry
        counts, are planned by PlanAll on copies of the ledgers, which are then
        written back. The planner throws when an entry cannot be served; it
        demands that every product fits on a drone (Fits), without which the
        booking loop does not end. On success: nothing of any pending order is
        outstanding; every unit an order lacked is on a payload for it, and now
        reserved at the order; every unit that left a warehouse's available
        count is on a payload, and now reserved at the warehouse; the payloads
        come in one run per order, in ranked order; and the model is still
        well formed. It throws exactly when, for some product, the warehouses
        hold fewer units than the pending orders lack, and the planned ledgers
        and payloads are those InitOf gives. */
    method Init() returns (o: Outcome, ghost p: Prepared)
      requires model.Valid() && Fits(SettingOf(model))
      modifies this, model.warehouses, model.orders
      ensures o == Pass || o == Fail(NoWarehouseWithStock)
      ensures Started(model, old(Ledgers(model.warehouses)), old(Ledgers(model.orders)), p)
      ensures o == Pass <==> old(Enough(Ledgers(model.warehouses), Ledgers(model.orders)))
      ensures o == Pass <==> InitOf(model, p).Some?
      ensures o == Pass ==> InitOf(model, p).value == Schedule(p.after, p.settled, p.cache)
      ensures o == Pass ==> cache == p.cache && Valid()
      ensures o == Pass ==> model.Valid() && Finished(model, p)
    {
      var ws0, os0 := Ledgers(model.warehouses), Ledgers(model.orders);
      var ws, os, c;
      o, ws, os, c, p := Prepare(model, ws0, os0);
      if o != Pass {
        return;
      }
      Install(this, ws, os, c);
    }

    /** getCommandsFor: nothing when no payload is left. Otherwise the first
        payload is taken off the cache and its items are reserved on the drone
        (ReservePayload). */
    method GetCommandsFor(drone: Drone) returns (o: Outcome, commands: seq<Command>)
      requires Valid() && drone.Valid() && drone.catalog == model.products
      modifies this, drone
      ensures Valid() && drone.Valid()
      ensures drone.commandQueue == old(drone.commandQueue) && drone.enqueued == old(drone.enqueued)
      ensures drone.location == old(drone.location)
      ensures drone.timeToCompleteActiveCommand == old(drone.timeToCompleteActiveCommand)
      ensures old(cache) == [] ==> o == Pass && commands == [] && cache == [] && unchanged(drone)
      ensures old(cache) != [] ==>
        var p := old(cache[0]);
        && cache == old(cache[1..])
        && (o == Pass <==> old(drone.totalWeight) + ItemsWeight(p.items) <= drone.capacity)
        && (o != Pass ==> o == Fail(CapacityExceeded) && commands == [])
        && (o == Pass ==>
              && commands == TripCommands(drone.id, p)
              && drone.payload == ReserveItems(old(drone.payload), p.items)
              && drone.totalWeight == old(drone.totalWeight) + ItemsWeight(p.items))
    {
      if cache == [] {
        return Pass, [];
      }
      var p := cache[0];
      cache := cache[1..];
      o, commands := ReservePayload(drone, p, SettingOf(model));
    }
  }
}
