// Drone.kt: the drone's payload ledger with its weight accounting, the FIFO
// command queue and the one-tick countdown that completes the head command.
module Drones {
  import opened Results
  import opened Products
  import opened Geometry
  import opened Ledger
  import opened Commands
  import opened Seqs

  /** The weight one payload entry puts on the drone: all its units, loaded or reserved. */
  function EntryWeight(e: StoreProduct): int
  {
    (e.available + e.reserved) * e.product.weight
  }

  /** The weight of a whole payload. */
  function PayloadWeight(items: seq<StoreProduct>): int
  {
    if items == [] then 0 else EntryWeight(items[0]) + PayloadWeight(items[1..])
  }

  /** What Drone.kt keeps true of `payload` and `totalWeight` between calls: the
      weight is the payload's, within capacity; one entry per product; no negative
      count; every product from the catalogue. */
  predicate PayloadOk(items: seq<StoreProduct>, weight: int, capacity: int, catalog: seq<Product>)
  {
    && weight == PayloadWeight(items)
    && 0 <= weight <= capacity
    && DistinctIds(items)
    && NonNegative(items)
    && forall j :: 0 <= j < |items| ==> Catalogued(items[j].product, catalog)
  }

  /** Drone.reserve's ledger step: `q` more reserved units of `p`, in a new entry
      (0, q) at the end when the drone holds none of `p` yet. */
  function PayloadReserve(items: seq<StoreProduct>, p: Product, q: int): seq<StoreProduct>
  {
    match FindProduct(items, p.id)
    case None => items + [StoreProduct(p, 0, q)]
    case Some(k) => Adjust(items, k, 0, q)
  }

  /** Drone.load's ledger step: `q` reserved units of `p` become loaded. */
  function PayloadLoad(items: seq<StoreProduct>, p: Product, q: int): (r: Result<seq<StoreProduct>>)
    ensures r.Ok? <==> FindProduct(items, p.id).Some? && items[FindProduct(items, p.id).value].reserved >= q
    ensures r.Err? ==> r.error == NothingReserved
  {
    match FindProduct(items, p.id)
    case None => Err(NothingReserved)
    case Some(k) => if items[k].reserved < q then Err(NothingReserved) else Ok(Adjust(items, k, q, -q))
  }

  /** Drone.unload's ledger step: `q` loaded units of `p` leave the drone; the entry
      is removed (Kotlin's structural `remove`) once both of its counts are zero. */
  function PayloadUnload(items: seq<StoreProduct>, p: Product, q: int): (r: Result<seq<StoreProduct>>)
    ensures r.Ok? <==> FindProduct(items, p.id).Some? && items[FindProduct(items, p.id).value].available >= q
    ensures r.Err? ==> r.error == NothingLoaded
  {
    match FindProduct(items, p.id)
    case None => Err(NothingLoaded)
    case Some(k) =>
      if items[k].available < q then Err(NothingLoaded)
      else
        var e := Adjust(items, k, -q, 0);
        if e[k].available == 0 && e[k].reserved == 0 then Ok(RemoveFirst(e, e[k])) else Ok(e)
  }

  lemma {:induction false} WeightConcat(a: seq<StoreProduct>, b: seq<StoreProduct>)
    ensures PayloadWeight(a + b) == PayloadWeight(a) + PayloadWeight(b)
  {
    if a == [] {
      assert a + b == b;
    } else {
      assert (a + b)[1..] == a[1..] + b;
      WeightConcat(a[1..], b);
    }
  }

  lemma {:induction false} WeightAdjust(items: seq<StoreProduct>, k: nat, dA: int, dR: int)
    requires k < |items|
    ensures PayloadWeight(Adjust(items, k, dA, dR))
         == PayloadWeight(items) + (dA + dR) * items[k].product.weight
  {
    var a := Adjust(items, k, dA, dR);
    if k > 0 {
      assert a[1..] == Adjust(items[1..], k - 1, dA, dR);
      WeightAdjust(items[1..], k - 1, dA, dR);
    } else {
      assert a[1..] == items[1..];
      var e := items[0];
      assert EntryWeight(a[0]) == (e.available + dA + e.reserved + dR) * e.product.weight;
      assert EntryWeight(a[0]) == EntryWeight(e) + (dA + dR) * e.product.weight by {
        MulDistributes(e.available + e.reserved, dA + dR, e.product.weight);
      }
    }
  }

  lemma MulDistributes(a: int, b: int, w: int)
    ensures (a + b) * w == a * w + b * w
  {
  }

  lemma MulLe(a: int, b: int, w: int)
    requires a <= b && w >= 0
    ensures a * w <= b * w
  {
    assert b * w - a * w == (b - a) * w;
  }

  /** The entry the search finds for a catalogued product carries that very product. */
  lemma FoundIsCatalogued(items: seq<StoreProduct>, p: Product, catalog: seq<Product>)
    requires forall j :: 0 <= j < |items| ==> Catalogued(items[j].product, catalog)
    requires Catalogued(p, catalog) && FindProduct(items, p.id).Some?
    ensures items[FindProduct(items, p.id).value].product == p
  {
  }

  /** `e` without position `k`. */
  function Without(e: seq<StoreProduct>, k: nat): (r: seq<StoreProduct>)
    requires k < |e|
    ensures |r| == |e| - 1
    ensures forall j :: 0 <= j < |r| ==> r[j] == e[if j < k then j else j + 1]
  {
    e[..k] + e[k + 1..]
  }

  /** Dropping an entry whose counts are both zero keeps the weight and the units held. */
  lemma DropEmptyKeepsTotals(e: seq<StoreProduct>, k: nat)
    requires k < |e| && e[k].available == 0 && e[k].reserved == 0
    ensures PayloadWeight(e[..k] + e[k + 1..]) == PayloadWeight(e)
    ensures forall id :: Held(e[..k] + e[k + 1..], id) == Held(e, id)
  {
    assert e == e[..k] + ([e[k]] + e[k + 1..]);
    WeightConcat(e[..k], [e[k]] + e[k + 1..]);
    WeightConcat([e[k]], e[k + 1..]);
    WeightConcat(e[..k], e[k + 1..]);
    assert PayloadWeight([e[k]]) == 0;
    forall id ensures Held(e[..k] + e[k + 1..], id) == Held(e, id) {
      HeldConcat(e[..k], [e[k]] + e[k + 1..], id);
      HeldConcat([e[k]], e[k + 1..], id);
      HeldConcat(e[..k], e[k + 1..], id);
    }
  }

  /** Dropping an entry whose counts are both zero: Kotlin's `remove` of that entry
      takes out exactly that position (ids are distinct), and the weight, the units
      held and the payload invariants are unaffected. */
  lemma RemoveEmptyEntry(e: seq<StoreProduct>, k: nat, capacity: int, catalog: seq<Product>)
    requires k < |e| && e[k].available == 0 && e[k].reserved == 0
    requires PayloadOk(e, PayloadWeight(e), capacity, catalog)
    ensures RemoveFirst(e, e[k]) == e[..k] + e[k + 1..]
    ensures PayloadOk(RemoveFirst(e, e[k]), PayloadWeight(e), capacity, catalog)
    ensures forall id :: Held(RemoveFirst(e, e[k]), id) == Held(e, id)
    ensures forall j :: 0 <= j < |RemoveFirst(e, e[k])| ==> RemoveFirst(e, e[k])[j].product.id != e[k].product.id
  {
    forall j | 0 <= j < k ensures e[j] != e[k] {
      DistinctAt(e, j, k);
    }
    RemoveFirstAt(e, e[k], k);
    var r := Without(e, k);
    assert RemoveFirst(e, e[k]) == r;
    DropEmptyKeepsTotals(e, k);
    forall i, j | 0 <= i < j < |r|
      ensures IdAt(r, i) != IdAt(r, j)
    {
      DistinctAt(e, if i < k then i else i + 1, if j < k then j else j + 1);
    }
    forall j | 0 <= j < |r|
      ensures r[j].product.id != e[k].product.id
    {
      DistinctAt(e, if j < k then j else j + 1, k);
    }
  }

  /** Drone.reserve on a payload: the invariants survive whenever the capacity check
      passes, and exactly `q` more units of `p` are held. */
  lemma ReserveEffect(items: seq<StoreProduct>, weight: int, capacity: int, catalog: seq<Product>, p: Product, q: int)
    requires WellFormedCatalog(catalog) && PayloadOk(items, weight, capacity, catalog)
    requires q >= 0 && Catalogued(p, catalog) && weight + q * p.weight <= capacity
    ensures PayloadOk(PayloadReserve(items, p, q), weight + q * p.weight, capacity, catalog)
    ensures forall id :: Held(PayloadReserve(items, p, q), id) == Held(items, id) + (if id == p.id then q else 0)
    ensures var k := FindProduct(PayloadReserve(items, p, q), p.id);
      k.Some? && PayloadReserve(items, p, q)[k.value].reserved
        == q + (if FindProduct(items, p.id).Some? then items[k.value].reserved else 0)
  {
    var r := PayloadReserve(items, p, q);
    match FindProduct(items, p.id)
    case None =>
      var e := StoreProduct(p, 0, q);
      WeightConcat(items, [e]);
      assert PayloadWeight([e]) == q * p.weight;
      forall id ensures Held(r, id) == Held(items, id) + (if id == p.id then q else 0) {
        HeldConcat(items, [e], id);
      }
      assert r[|items|] == e;
      DistinctAppend(items, e);
    case Some(k) =>
      FoundIsCatalogued(items, p, catalog);
      WeightAdjust(items, k, 0, q);
      DistinctSameProducts(items, r);
      forall id ensures Held(r, id) == Held(items, id) + (if id == p.id then q else 0) {
        HeldAdjust(items, k, 0, q, id);
      }
      FindProductSameProducts(items, r, p.id);
  }

  /** Drone.load on a payload: units change state from reserved to loaded; the
      weight and the units held stay as they are. */
  lemma LoadEffect(items: seq<StoreProduct>, weight: int, capacity: int, catalog: seq<Product>, p: Product, q: int)
    requires PayloadOk(items, weight, capacity, catalog)
    requires q >= 0 && PayloadLoad(items, p, q).Ok?
    ensures PayloadOk(PayloadLoad(items, p, q).value, weight, capacity, catalog)
    ensures forall id :: Held(PayloadLoad(items, p, q).value, id) == Held(items, id)
    ensures var k := FindProduct(items, p.id).value; var r := PayloadLoad(items, p, q).value;
      r[k].available == items[k].available + q && r[k].reserved == items[k].reserved - q
  {
    var k := FindProduct(items, p.id).value;
    WeightAdjust(items, k, q, -q);
    DistinctSameProducts(items, PayloadLoad(items, p, q).value);
    forall id ensures Held(PayloadLoad(items, p, q).value, id) == Held(items, id) {
      HeldAdjust(items, k, q, -q, id);
    }
  }

  /** Drone.unload on a payload: `q` units of `p` leave, the weight falls by
      `q * weight`, and no entry of `p` is left with both counts zero. */
  lemma UnloadEffect(items: seq<StoreProduct>, weight: int, capacity: int, catalog: seq<Product>, p: Product, q: int)
    requires WellFormedCatalog(catalog) && PayloadOk(items, weight, capacity, catalog)
    requires q >= 0 && Catalogued(p, catalog) && PayloadUnload(items, p, q).Ok?
    ensures PayloadOk(PayloadUnload(items, p, q).value, weight - q * p.weight, capacity, catalog)
    ensures forall id :: Held(PayloadUnload(items, p, q).value, id) == Held(items, id) - (if id == p.id then q else 0)
    ensures var r := PayloadUnload(items, p, q).value; var k := FindProduct(r, p.id);
      k.Some? ==> r[k.value].available > 0 || r[k.value].reserved > 0
  {
    var k := FindProduct(items, p.id).value;
    var e := Adjust(items, k, -q, 0);
    TakeLoaded(items, weight, capacity, catalog, p, q, k);
    if e[k].available == 0 && e[k].reserved == 0 {
      RemoveEmptyEntry(e, k, capacity, catalog);
    }
  }

  /** The first half of unload: `q` loaded units of `p` leave entry `k`. */
  lemma TakeLoaded(items: seq<StoreProduct>, weight: int, capacity: int, catalog: seq<Product>, p: Product, q: int, k: nat)
    requires WellFormedCatalog(catalog) && PayloadOk(items, weight, capacity, catalog)
    requires q >= 0 && Catalogued(p, catalog) && FindProduct(items, p.id) == Some(k) && items[k].available >= q
    ensures PayloadOk(Adjust(items, k, -q, 0), weight - q * p.weight, capacity, catalog)
    ensures forall id :: Held(Adjust(items, k, -q, 0), id) == Held(items, id) - (if id == p.id then q else 0)
    ensures FindProduct(Adjust(items, k, -q, 0), p.id) == Some(k)
  {
    FoundIsCatalogued(items, p, catalog);
    var e := Adjust(items, k, -q, 0);
    WeightAdjust(items, k, -q, 0);
    assert PayloadWeight(e) == weight - q * p.weight by {
      assert (-q + 0) * p.weight == -(q * p.weight);
    }
    assert q * p.weight >= 0;
    forall id ensures Held(e, id) == Held(items, id) - (if id == p.id then q else 0) {
      HeldAdjust(items, k, -q, 0, id);
    }
    assert NonNegative(e);
    assert forall j :: 0 <= j < |e| ==> e[j].product == items[j].product;
    WeightNonNegative(e);
    FindProductSameProducts(items, e, p.id);
    DistinctSameProducts(items, e);
  }

  /** With non-negative counts and catalogue weights, a payload weighs at least zero. */
  lemma {:induction false} WeightNonNegative(items: seq<StoreProduct>)
    requires NonNegative(items)
    requires forall j :: 0 <= j < |items| ==> items[j].product.weight >= 0
    ensures PayloadWeight(items) >= 0
  {
    if items != [] {
      WeightNonNegative(items[1..]);
    }
  }

  /** advanceTime's countdown step: an idle countdown (-1) is first armed with
      1 + the distance `d` to the head command's target; then one tick is taken
      off. The head command completes when this reaches 0. */
  function Countdown(timer: int, d: nat): int
  {
    (if timer == -1 then 1 + d else timer) - 1
  }

  /** The countdown a call leaves behind: -1 again once the command completed. */
  function NextTimer(timer: int, d: nat): int
  {
    var t := Countdown(timer, d);
    if t == 0 then -1 else t
  }

  /** The countdown after `n` calls, starting idle, with the head's distance `d`. */
  function TimerAfter(d: nat, n: nat): int
  {
    if n == 0 then -1 else NextTimer(TimerAfter(d, n - 1), d)
  }

  /** The head command completes on exactly the (1 + d)-th call, counting the call
      that activates it; before that the countdown stays positive, and the call
      that completes it puts it back to -1. */
  lemma {:induction false} CompletesOnCall(d: nat, n: nat)
    requires 1 <= n <= d + 1
    ensures Countdown(TimerAfter(d, n - 1), d) == d + 1 - n
    ensures Countdown(TimerAfter(d, n - 1), d) == 0 <==> n == d + 1
    ensures TimerAfter(d, n) == if n == d + 1 then -1 else d + 1 - n
  {
    if n > 1 {
      CompletesOnCall(d, n - 1);
    }
  }

  /** What completing a command does to its site's ledger, the payload and the
      weight, and whether it throws. The site's checkout comes first; when the
      drone's own step then fails, the checkout stays done, as in the source. */
  datatype Effect = Effect(site: seq<StoreProduct>, payload: seq<StoreProduct>, weight: int, outcome: Outcome)

  function Complete(c: Command, site: seq<StoreProduct>, payload: seq<StoreProduct>, weight: int): Effect
  {
    match LedgerCheckout(site, c.product, c.quantity)
    case Err(e) => Effect(site, payload, weight, Fail(e))
    case Ok(checkedOut) =>
      if c.Load? then
        match PayloadLoad(payload, c.product, c.quantity)
        case Err(e) => Effect(checkedOut, payload, weight, Fail(e))
        case Ok(p) => Effect(checkedOut, p, weight, Pass)
      else
        match PayloadUnload(payload, c.product, c.quantity)
        case Err(e) => Effect(checkedOut, payload, weight, Fail(e))
        case Ok(p) => Effect(checkedOut, p, weight - c.quantity * c.product.weight, Pass)
  }

  /** Units move, they are never created: a completed Load takes `q` units of `p`
      out of the warehouse's reservations and leaves the drone holding as many
      as before (now loaded) at the same weight; a completed Deliver takes `q`
      out of both the order's reservations and the drone, and `q * weight` off
      the weight. The drone's invariants survive either. */
  lemma CompleteEffect(c: Command, site: seq<StoreProduct>, payload: seq<StoreProduct>, weight: int,
                       capacity: int, catalog: seq<Product>, id: int)
    requires WellFormedCatalog(catalog) && PayloadOk(payload, weight, capacity, catalog)
    requires c.quantity >= 0 && Catalogued(c.product, catalog)
    requires Complete(c, site, payload, weight).outcome == Pass
    ensures var e := Complete(c, site, payload, weight);
      && PayloadOk(e.payload, e.weight, capacity, catalog)
      && Held(e.site, id) == Held(site, id) - (if id == c.product.id then c.quantity else 0)
      && Held(e.payload, id) == Held(payload, id) - (if c.Deliver? && id == c.product.id then c.quantity else 0)
      && e.weight == weight - (if c.Deliver? then c.quantity * c.product.weight else 0)
  {
    CheckoutRemoves(site, c.product, c.quantity, id);
    if c.Load? {
      LoadEffect(payload, weight, capacity, catalog, c.product, c.quantity);
    } else {
      UnloadEffect(payload, weight, capacity, catalog, c.product, c.quantity);
    }
  }

  /** A queued command is addressed to drone `droneId`, with a non-negative
      quantity of a catalogued product. */
  predicate Issued(c: Command, droneId: int, catalog: seq<Product>)
  {
    c.drone == droneId && c.quantity >= 0 && Catalogued(c.product, catalog)
  }

  /** The command's site is a valid index: a warehouse id for a Load, an order id for a Deliver. */
  predicate InRange(c: Command, warehouseCount: int, orderCount: int)
  {
    0 <= c.site < if c.Load? then warehouseCount else orderCount
  }

  /** The store a command travels to: its warehouse for a Load, its order for a Deliver. */
  function Target(c: Command, warehouses: seq<Store>, orders: seq<Store>): Store
    requires InRange(c, |warehouses|, |orders|)
  {
    if c.Load? then warehouses[c.site] else orders[c.site]
  }

  /** Whether the next advanceTime completes the active command: the countdown
      towards the head command's store reaches zero. */
  function Arrives(queue: seq<Command>, timer: int, loc: Location, warehouses: seq<Store>, orders: seq<Store>): bool
    requires queue == [] || InRange(queue[0], |warehouses|, |orders|)
  {
    queue != [] && Countdown(timer, Dist(loc, Target(queue[0], warehouses, orders).loc)) == 0
  }

  /** A drone's queue, location and countdown. */
  datatype Motion = Motion(queue: seq<Command>, location: Location, timer: int)

  /** Where an advanceTime that does not throw leaves a drone: an empty queue
      leaves it where it is; a command still under way keeps the queue and
      counts down; a command that completes leaves the queue, and the drone
      stands at its store with the countdown reset. Only then can the queue
      empty out. */
  function Travel(queue: seq<Command>, timer: int, loc: Location, warehouses: seq<Store>, orders: seq<Store>): (r: Motion)
    requires queue == [] || InRange(queue[0], |warehouses|, |orders|)
    ensures r.queue == (if Arrives(queue, timer, loc, warehouses, orders) then queue[1..] else queue)
    ensures r.queue == [] <==> queue == [] || (|queue| == 1 && Arrives(queue, timer, loc, warehouses, orders))
    ensures queue == [] ==> r == Motion(queue, loc, timer)
  {
    if queue == [] then Motion(queue, loc, timer)
    else
      var target := Target(queue[0], warehouses, orders);
      var t := Countdown(timer, Dist(loc, target.loc));
      if t != 0 then Motion(queue, loc, t) else Motion(queue[1..], target.loc, -1)
  }

  /** Drone.advanceTime's effect, from the state before the call to the state
      after it, for outcome `o`: the drone moves as Travel says (the countdown
      is 0 after a throw). When the active command completes, its checkout at
      the target store decides the outcome, the store's new ledger and the
      drone's payload and weight, and no other store changes; otherwise
      nothing but the drone's queue, location and countdown changes. */
  twostate predicate Advanced(d: Drone, warehouses: seq<Store>, orders: seq<Store>, o: Outcome)
    reads d, warehouses, orders
  {
    var queue, timer, loc := old(d.commandQueue), old(d.timeToCompleteActiveCommand), old(d.location);
    && (queue == [] || InRange(queue[0], |warehouses|, |orders|))
    && (var next := Travel(queue, timer, loc, warehouses, orders);
        && d.commandQueue == next.queue && d.location == next.location
        && d.timeToCompleteActiveCommand == (if o.Pass? then next.timer else 0))
    && (if Arrives(queue, timer, loc, warehouses, orders) then
          var target := Target(queue[0], warehouses, orders);
          var e := Complete(queue[0], old(target.items), old(d.payload), old(d.totalWeight));
          && o == e.outcome && target.items == e.site
          && d.payload == e.payload && d.totalWeight == e.weight
          && Kept(warehouses, target) && Kept(orders, target)
        else
          && o == Pass && d.payload == old(d.payload) && d.totalWeight == old(d.totalWeight)
          && Kept(warehouses, null) && Kept(orders, null))
  }

  /** No store of the list but `except` has a new ledger. */
  twostate predicate Kept(stores: seq<Store>, except: Store?)
    reads stores
  {
    forall i :: 0 <= i < |stores| && stores[i] != except ==> stores[i].items == old(stores[i].items)
  }

  /** Every queued command is for drone `droneId` and issued properly, and the
      queue is what is left of the commands ever accepted (`enqueued`), in order. */
  predicate QueueOk(queue: seq<Command>, enqueued: seq<Command>, droneId: int, catalog: seq<Product>)
  {
    && (forall k :: 0 <= k < |queue| ==> Issued(queue[k], droneId, catalog))
    && |queue| <= |enqueued|
    && enqueued[|enqueued| - |queue|..] == queue
  }

  /** Accepting a command appends it to both the queue and the record. */
  lemma QueueAppend(queue: seq<Command>, enqueued: seq<Command>, droneId: int, catalog: seq<Product>, c: Command)
    requires QueueOk(queue, enqueued, droneId, catalog) && Issued(c, droneId, catalog)
    ensures QueueOk(queue + [c], enqueued + [c], droneId, catalog)
  {
    var e := enqueued + [c];
    assert e[|e| - |queue + [c]|..] == enqueued[|enqueued| - |queue|..] + [c];
  }

  /** Completing the head removes it from the queue; the record keeps it. */
  lemma QueuePop(queue: seq<Command>, enqueued: seq<Command>, droneId: int, catalog: seq<Product>)
    requires QueueOk(queue, enqueued, droneId, catalog) && queue != []
    ensures QueueOk(queue[1..], enqueued, droneId, catalog)
  {
    assert enqueued[|enqueued| - |queue[1..]|..] == enqueued[|enqueued| - |queue|..][1..];
  }

  /** Drone.kt. `enqueued` records every command ever accepted, so that the queue
      can be stated to be what is left of it. */
  class Drone {
    const id: int
    var location: Location
    const distanceMap: DistanceMap
    const capacity: int
    ghost const catalog: seq<Product>
    var payload: seq<StoreProduct>
    var totalWeight: int
    var commandQueue: seq<Command>
    var timeToCompleteActiveCommand: int
    ghost var enqueued: seq<Command>

    ghost predicate Valid()
      reads this
    {
      && Consistent()
      && (timeToCompleteActiveCommand == -1 || (timeToCompleteActiveCommand > 0 && commandQueue != []))
    }

    /** Valid() without the countdown clause. */
    ghost predicate Consistent()
      reads this
    {
      && WellFormedCatalog(catalog)
      && PayloadOk(payload, totalWeight, capacity, catalog)
      && QueueOk(commandQueue, enqueued, id, catalog)
    }

    /** The distance cache knows the drone's position, every site, and every
        queued command names a site that exists. */
    ghost predicate Addressed(warehouses: seq<Store>, orders: seq<Store>)
      reads this, distanceMap, distanceMap.cells
    {
      && distanceMap.Valid()
      && distanceMap.Knows(location)
      && (forall s :: s in warehouses ==> distanceMap.Knows(s.loc))
      && (forall s :: s in orders ==> distanceMap.Knows(s.loc))
      && forall k :: 0 <= k < |commandQueue| ==> InRange(commandQueue[k], |warehouses|, |orders|)
    }

    constructor (id: int, location: Location, distanceMap: DistanceMap, capacity: int, ghost catalog: seq<Product>)
      requires capacity >= 0 && WellFormedCatalog(catalog)
      ensures Valid()
      ensures this.id == id && this.location == location && this.distanceMap == distanceMap && this.capacity == capacity
      ensures this.catalog == catalog
      ensures payload == [] && totalWeight == 0 && commandQueue == [] && timeToCompleteActiveCommand == -1
      ensures enqueued == []
    {
      this.id := id;
      this.location := location;
      this.distanceMap := distanceMap;
      this.capacity := capacity;
      this.catalog := catalog;
      payload := [];
      totalWeight := 0;
      commandQueue := [];
      timeToCompleteActiveCommand := -1;
      enqueued := [];
    }

    /** Drone.isIdle: nothing queued. */
    predicate IsIdle()
      reads this
    {
      commandQueue == []
    }

    /** Drone.enqueueCommand: a command for another drone is refused; any other
        joins the tail of the queue and nothing else changes. */
    method EnqueueCommand(c: Command) returns (o: Outcome)
      requires Valid() && c.quantity >= 0 && Catalogued(c.product, catalog)
      modifies this
      ensures Valid()
      ensures o == if c.drone == id then Pass else Fail(WrongDrone)
      ensures commandQueue == if o.Pass? then old(commandQueue) + [c] else old(commandQueue)
      ensures enqueued == if o.Pass? then old(enqueued) + [c] else old(enqueued)
      ensures location == old(location) && payload == old(payload) && totalWeight == old(totalWeight)
      ensures timeToCompleteActiveCommand == old(timeToCompleteActiveCommand)
    {
      if c.drone != id {
        return Fail(WrongDrone);
      }
      QueueAppend(commandQueue, enqueued, id, catalog, c);
      commandQueue := commandQueue + [c];
      enqueued := enqueued + [c];
      o := Pass;
    }

    /** Drone.reserve: refused, changing nothing, when `q` more units of `p` would
        take the weight over capacity; otherwise `q` more units are reserved and
        the weight rises by `q * weight`. */
    method Reserve(p: Product, q: int) returns (o: Outcome)
      requires q >= 0
      modifies this
      ensures old(Valid()) && Catalogued(p, catalog) ==> Valid()
      ensures o == if old(totalWeight) + q * p.weight > capacity then Fail(CapacityExceeded) else Pass
      ensures payload == if o.Pass? then PayloadReserve(old(payload), p, q) else old(payload)
      ensures totalWeight == if o.Pass? then old(totalWeight) + q * p.weight else old(totalWeight)
      ensures commandQueue == old(commandQueue) && enqueued == old(enqueued) && location == old(location)
      ensures timeToCompleteActiveCommand == old(timeToCompleteActiveCommand)
    {
      var loadWeight := q * p.weight;
      if totalWeight + loadWeight > capacity {
        return Fail(CapacityExceeded);
      }
      if Valid() && Catalogued(p, catalog) {
        ReserveEffect(payload, totalWeight, capacity, catalog, p, q);
      }
      payload := PayloadReserve(payload, p, q);
      totalWeight := totalWeight + loadWeight;
      o := Pass;
    }

    /** Drone.getFreeCapacityAsQuantityFor: how many units of `p` still fit. */
    function FreeCapacityFor(p: Product): (n: int)
      reads this
      requires p.weight > 0
      ensures n * p.weight <= capacity - totalWeight < (n + 1) * p.weight
      ensures totalWeight <= capacity ==> n >= 0
    {
      (capacity - totalWeight) / p.weight
    }

    /** Drone.load: on success `q` reserved units of `p` become loaded. */
    method Load(p: Product, q: int) returns (o: Outcome)
      modifies this
      ensures var r := PayloadLoad(old(payload), p, q);
        && (o == if r.Ok? then Pass else Fail(r.error))
        && payload == (if r.Ok? then r.value else old(payload))
      ensures totalWeight == old(totalWeight) && commandQueue == old(commandQueue)
      ensures enqueued == old(enqueued) && location == old(location)
      ensures timeToCompleteActiveCommand == old(timeToCompleteActiveCommand)
    {
      var r := PayloadLoad(payload, p, q);
      if r.Err? {
        return Fail(r.error);
      }
      payload := r.value;
      o := Pass;
    }

    /** Drone.unload: on success `q` loaded units of `p` leave and the weight falls
        by `q * weight`. */
    method Unload(p: Product, q: int) returns (o: Outcome)
      modifies this
      ensures var r := PayloadUnload(old(payload), p, q);
        && (o == if r.Ok? then Pass else Fail(r.error))
        && payload == (if r.Ok? then r.value else old(payload))
        && totalWeight == (if r.Ok? then old(totalWeight) - q * p.weight else old(totalWeight))
      ensures commandQueue == old(commandQueue)
      ensures enqueued == old(enqueued) && location == old(location)
      ensures timeToCompleteActiveCommand == old(timeToCompleteActiveCommand)
    {
      var r := PayloadUnload(payload, p, q);
      if r.Err? {
        return Fail(r.error);
      }
      totalWeight := totalWeight - q * p.weight;
      payload := r.value;
      o := Pass;
    }

    /** Drone.advanceTime: one tick. An idle drone with an empty queue does nothing.
        Otherwise the head command is activated if need be (countdown 1 + distance
        to its site), the countdown goes down by one, and when it reaches 0 the head
        leaves the queue, the drone moves to the site and the command's effect
        (Complete) is applied; the countdown is back to -1 unless that threw. */
    method AdvanceTime(warehouses: seq<Store>, orders: seq<Store>) returns (o: Outcome)
      requires Valid() && Addressed(warehouses, orders)
      modifies this, distanceMap.cells, warehouses, orders
      ensures Addressed(warehouses, orders)
      ensures enqueued == old(enqueued)
      ensures o.Pass? ==> Valid()
      ensures Advanced(this, warehouses, orders, o)
    {
      o := Pass;
      if timeToCompleteActiveCommand == -1 {
        if commandQueue == [] {
          return;
        }
        var target := Target(commandQueue[0], warehouses, orders);
        var d := distanceMap.Distance(location, target.loc);
        timeToCompleteActiveCommand := 1 + d;
      }
      timeToCompleteActiveCommand := timeToCompleteActiveCommand - 1;
      if timeToCompleteActiveCommand == 0 {
        o := CompleteHead(warehouses, orders);
      }
    }

    /** The completing half of advanceTime (countdown at 0): the head leaves the
        queue, the drone moves to its site, the site checks the reservation out and
        the drone loads or unloads. */
    method CompleteHead(warehouses: seq<Store>, orders: seq<Store>) returns (o: Outcome)
      requires Consistent() && Addressed(warehouses, orders)
      requires timeToCompleteActiveCommand == 0 && commandQueue != []
      modifies this, warehouses, orders
      ensures Addressed(warehouses, orders)
      ensures enqueued == old(enqueued)
      ensures o.Pass? ==> Valid()
      ensures var head := old(commandQueue)[0];
        var target := Target(head, warehouses, orders);
        var e := Complete(head, old(target.items), old(payload), old(totalWeight));
        && commandQueue == old(commandQueue)[1..] && location == target.loc
        && target.items == e.site && payload == e.payload && totalWeight == e.weight
        && o == e.outcome
        && timeToCompleteActiveCommand == (if o.Pass? then -1 else 0)
        && forall s :: (s in warehouses || s in orders) && s != target ==> s.items == old(s.items)
    {
      var c := commandQueue[0];
      var site := Target(c, warehouses, orders);
      ghost var siteBefore := site.items;
      var checkout := site.CheckoutReservation(c.product, c.quantity);
      o := Arrive(site.loc, checkout, siteBefore);
    }

    /** The drone's side of completing the head command at `at`, once the site's
        checkout has given `checkout`: the head leaves the queue and the drone
        moves there whatever happens; after a successful checkout it loads or
        unloads, as Complete describes. */
    method Arrive(at: Location, checkout: Outcome, ghost site: seq<StoreProduct>) returns (o: Outcome)
      requires Consistent() && timeToCompleteActiveCommand == 0 && commandQueue != []
      requires var r := LedgerCheckout(site, commandQueue[0].product, commandQueue[0].quantity);
        checkout == if r.Ok? then Pass else Fail(r.error)
      modifies this
      ensures enqueued == old(enqueued)
      ensures o.Pass? ==> Valid()
      ensures var e := Complete(old(commandQueue)[0], site, old(payload), old(totalWeight));
        && commandQueue == old(commandQueue)[1..] && location == at
        && payload == e.payload && totalWeight == e.weight && o == e.outcome
        && timeToCompleteActiveCommand == (if o.Pass? then -1 else 0)
    {
      var c := commandQueue[0];
      QueuePop(commandQueue, enqueued, id, catalog);
      commandQueue := commandQueue[1..];
      location := at;
      o := checkout;
      if o.Fail? {
        return;
      }
      ghost var payloadBefore, weightBefore := payload, totalWeight;
      if c.Load? {
        o := Load(c.product, c.quantity);
      } else {
        o := Unload(c.product, c.quantity);
      }
      if o.Fail? {
        return;
      }
      CompleteEffect(c, site, payloadBefore, weightBefore, capacity, catalog, 0);
      timeToCompleteActiveCommand := -1;
    }
  }
}
