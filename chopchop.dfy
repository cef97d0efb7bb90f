// ChopChopDumbAlgorithm.kt: the first-fit policy. It takes the first order with
// an outstanding entry, and loads that entry's product from the warehouses in
// list order until the entry is covered, the drone is full or the warehouses
// run out; then it delivers everything loaded in one go.
module ChopChop {
  import opened Results
  import opened Products
  import opened Ledger
  import opened Orders
  import opened Commands
  import opened Drones
  import opened World

  /** One load the loop settles on: which warehouse, how many units. */
  datatype Pick = Pick(warehouse: nat, quantity: int)

  /** The loads the warehouse loop of getCommandsFor settles on, over the first
      `n` warehouses in list order. `avail` are the warehouses' available counts
      of the product, `need` what the order entry has available, `free` how many
      units the drone can take. Each warehouse gives the least of what is still
      needed, what it has and what still fits; a warehouse that gives nothing
      adds no load. */
  function Greedy(avail: seq<int>, n: nat, need: int, free: int): seq<Pick>
    requires n <= |avail|
  {
    if n == 0 then []
    else
      var prev := Greedy(avail, n - 1, need, free);
      var q := Min3(need - Total(prev), avail[n - 1], free - Total(prev));
      if q > 0 then prev + [Pick(n - 1, q)] else prev
  }

  /** Units over all picks. */
  function Total(picks: seq<Pick>): int
  {
    if picks == [] then 0 else Total(picks[..|picks| - 1]) + picks[|picks| - 1].quantity
  }

  /** Units picked at warehouse `w`. */
  function Taken(picks: seq<Pick>, w: nat): int
  {
    if picks == [] then 0
    else
      var last := picks[|picks| - 1];
      Taken(picks[..|picks| - 1], w) + (if last.warehouse == w then last.quantity else 0)
  }

  /** Units available in the first `n` warehouses. */
  function Stock(avail: seq<int>, n: nat): int
    requires n <= |avail|
  {
    if n == 0 then 0 else Stock(avail, n - 1) + avail[n - 1]
  }

  /** The Load commands for a list of picks, in pick order. */
  function Loads(picks: seq<Pick>, droneId: int, p: Product): (r: seq<Command>)
    ensures |r| == |picks|
  {
    if picks == [] then []
    else
      var last := picks[|picks| - 1];
      Loads(picks[..|picks| - 1], droneId, p) + [Load(droneId, last.warehouse, p, last.quantity)]
  }

  /** Load `j` carries pick `j`: its warehouse and its quantity, for the drone and product given. */
  lemma {:induction false} LoadsAt(picks: seq<Pick>, droneId: int, p: Product, j: nat)
    requires j < |picks|
    ensures Loads(picks, droneId, p)[j] == Load(droneId, picks[j].warehouse, p, picks[j].quantity)
  {
    if j < |picks| - 1 {
      LoadsAt(picks[..|picks| - 1], droneId, p, j);
    }
  }

  lemma TotalAppend(picks: seq<Pick>, x: Pick)
    ensures Total(picks + [x]) == Total(picks) + x.quantity
  {
    assert (picks + [x])[..|picks|] == picks;
  }

  lemma TakenAppend(picks: seq<Pick>, x: Pick, w: nat)
    ensures Taken(picks + [x], w) == Taken(picks, w) + (if x.warehouse == w then x.quantity else 0)
  {
    assert (picks + [x])[..|picks|] == picks;
  }

  lemma LoadsAppend(picks: seq<Pick>, x: Pick, droneId: int, p: Product)
    ensures Loads(picks + [x], droneId, p) == Loads(picks, droneId, p) + [Load(droneId, x.warehouse, p, x.quantity)]
  {
    assert (picks + [x])[..|picks|] == picks;
  }

  /** Picks at strictly increasing warehouses below `hi`, each for a positive
      quantity within that warehouse's stock. */
  predicate Ascending(r: seq<Pick>, avail: seq<int>, hi: int)
    decreases |r|
  {
    r == [] ||
      var last := r[|r| - 1];
      && last.warehouse < hi && last.warehouse < |avail|
      && 0 < last.quantity <= avail[last.warehouse]
      && Ascending(r[..|r| - 1], avail, last.warehouse)
  }

  /** Ascending picks take nothing at or above `hi`, and at most the stock below it. */
  lemma {:induction false} AscendingTaken(r: seq<Pick>, avail: seq<int>, hi: int, j: nat)
    requires Ascending(r, avail, hi)
    ensures j >= hi ==> Taken(r, j) == 0
    ensures j < |avail| ==> 0 <= Taken(r, j) <= (if avail[j] >= 0 then avail[j] else 0)
    decreases |r|
  {
    if r != [] {
      AscendingTaken(r[..|r| - 1], avail, r[|r| - 1].warehouse, j);
    }
  }

  /** The loop takes as much as it can: the least of what the entry needs, what
      the drone can take and what the warehouses hold; and its loads name
      warehouses in list order, each once, each within that warehouse's stock. */
  lemma {:induction false} GreedyTotal(avail: seq<int>, n: nat, need: int, free: int)
    requires n <= |avail| && need >= 0 && free >= 0 && AllNonNegative(avail)
    ensures Total(Greedy(avail, n, need, free)) == Min3(need, free, Stock(avail, n))
    ensures Ascending(Greedy(avail, n, need, free), avail, n)
    ensures Stock(avail, n) >= 0
  {
    if n > 0 {
      GreedyTotal(avail, n - 1, need, free);
      var prev := Greedy(avail, n - 1, need, free);
      var q := Min3(need - Total(prev), avail[n - 1], free - Total(prev));
      if q > 0 {
        TotalAppend(prev, Pick(n - 1, q));
        assert (prev + [Pick(n - 1, q)])[..|prev|] == prev;
      }
    }
  }

  /** Once the entry is covered or the drone is full, later warehouses add nothing. */
  lemma {:induction false} GreedySaturated(avail: seq<int>, i: nat, n: nat, need: int, free: int)
    requires i <= n <= |avail| && AllNonNegative(avail)
    requires Total(Greedy(avail, i, need, free)) == need || Total(Greedy(avail, i, need, free)) == free
    ensures Greedy(avail, n, need, free) == Greedy(avail, i, need, free)
    decreases n
  {
    if n > i {
      GreedySaturated(avail, i, n - 1, need, free);
    }
  }

  /** A warehouse keeps some of the product only when the entry is covered or
      the drone is full: short of both, every warehouse gives all it has. */
  lemma {:induction false} GreedyFull(avail: seq<int>, n: nat, need: int, free: int, j: nat)
    requires n <= |avail| && need >= 0 && free >= 0 && AllNonNegative(avail) && j < n
    requires Total(Greedy(avail, n, need, free)) < need && Total(Greedy(avail, n, need, free)) < free
    ensures Taken(Greedy(avail, n, need, free), j) == avail[j]
    decreases n
  {
    var prev := Greedy(avail, n - 1, need, free);
    GreedyTotal(avail, n - 1, need, free);
    var t := Total(prev);
    var q := Min3(need - t, avail[n - 1], free - t);
    AscendingTaken(prev, avail, n - 1, j);
    var g := Greedy(avail, n, need, free);
    if q > 0 {
      assert g == prev + [Pick(n - 1, q)];
      TotalAppend(prev, Pick(n - 1, q));
      TakenAppend(prev, Pick(n - 1, q), j);
      assert Total(g) == t + q;
    } else {
      assert g == prev;
    }
    if j < n - 1 {
      assert t <= Total(g);
      GreedyFull(avail, n - 1, need, free, j);
    } else {
      assert Taken(prev, j) == 0;
    }
  }

  /** Warehouse `i` in Greedy's terms: the load it gives extends the loads before
      it, and once the loop stops (the warehouse has the product and the load is
      zero or covers the entry) later warehouses add nothing. */
  lemma GreedyNext(avail: seq<int>, i: nat, n: nat, need: int, free: int, prev: seq<Pick>,
                   left: int, here: int, room: int, q: int, stop: bool)
    requires i < n <= |avail| && need >= 0 && free >= 0 && AllNonNegative(avail)
    requires prev == Greedy(avail, i, need, free)
    requires left == need - Total(prev) && here == avail[i] && room == free - Total(prev)
    requires q == Min3(left, here, room)
    requires stop ==> here != 0 && (q == 0 || q == left)
    ensures Greedy(avail, i + 1, need, free) == if q > 0 then prev + [Pick(i, q)] else prev
    ensures stop ==> Greedy(avail, n, need, free) == Greedy(avail, i + 1, need, free)
  {
    var next := Greedy(avail, i + 1, need, free);
    GreedyTotal(avail, i, need, free);
    var t := Total(prev);
    assert next == if q > 0 then prev + [Pick(i, q)] else prev;
    if stop {
      if q > 0 {
        TotalAppend(prev, Pick(i, q));
        assert Total(next) == need;
      } else {
        assert Total(next) == t && (t == need || t == free);
      }
      GreedySaturated(avail, i + 1, n, need, free);
    }
  }

  /** A warehouse without the product adds nothing to Greedy's loads. */
  lemma GreedySkip(avail: seq<int>, i: nat, need: int, free: int)
    requires i < |avail| && avail[i] == 0
    ensures Greedy(avail, i + 1, need, free) == Greedy(avail, i, need, free)
  {
  }

  /** Every load Greedy settles on is at one of the first `n` warehouses and
      for a positive quantity, so their total is never negative. */
  lemma {:induction false} GreedyPicksOk(avail: seq<int>, n: nat, need: int, free: int)
    requires n <= |avail|
    ensures forall j :: 0 <= j < |Greedy(avail, n, need, free)| ==>
      Greedy(avail, n, need, free)[j].warehouse < n && Greedy(avail, n, need, free)[j].quantity > 0
    ensures Total(Greedy(avail, n, need, free)) >= 0
  {
    if n > 0 {
      GreedyPicksOk(avail, n - 1, need, free);
      var prev := Greedy(avail, n - 1, need, free);
      var q := Min3(need - Total(prev), avail[n - 1], free - Total(prev));
      if q > 0 {
        TotalAppend(prev, Pick(n - 1, q));
      }
    }
  }

  /** The commands of one getCommandsFor call: the loads of `plan`, each at one
      of the warehouses and positive, then the Deliver of their total to the
      order. All are for the drone, for a catalogued product, with a count that
      is not negative, at a site that exists. */
  lemma ChopCommandsOk(plan: seq<Pick>, droneId: int, product: Product, orderId: int,
                       warehouseCount: int, orderCount: int, catalog: seq<Product>)
    requires forall j :: 0 <= j < |plan| ==> plan[j].warehouse < warehouseCount && plan[j].quantity > 0
    requires Total(plan) >= 0 && Catalogued(product, catalog) && 0 <= orderId < orderCount
    ensures var cs := Loads(plan, droneId, product) + [Deliver(droneId, orderId, product, Total(plan))];
      forall k :: 0 <= k < |cs| ==> Issued(cs[k], droneId, catalog) && InRange(cs[k], warehouseCount, orderCount)
  {
    var cs := Loads(plan, droneId, product) + [Deliver(droneId, orderId, product, Total(plan))];
    forall k | 0 <= k < |cs|
      ensures Issued(cs[k], droneId, catalog) && InRange(cs[k], warehouseCount, orderCount)
    {
      if k < |plan| {
        LoadsAt(plan, droneId, product, k);
      }
    }
  }

  /** Position of the first ledger with an outstanding entry. */
  function FirstWithOutstanding(ledgers: seq<seq<StoreProduct>>): (r: Option<nat>)
    ensures r.Some? ==> r.value < |ledgers| && FirstOutstanding(ledgers[r.value]).Some?
    ensures r.Some? ==> forall i :: 0 <= i < r.value ==> FirstOutstanding(ledgers[i]).None?
    ensures r.None? <==> forall i :: 0 <= i < |ledgers| ==> FirstOutstanding(ledgers[i]).None?
  {
    if ledgers == [] then None
    else if FirstOutstanding(ledgers[0]).Some? then Some(0)
    else
      match FirstWithOutstanding(ledgers[1..])
      case None => None
      case Some(i) => Some(i + 1)
  }

  /** The `firstOrNull { !it.isCompleted() && !it.getOutstandingItems().isEmpty() }`
      search over the ledgers of the pending orders: the first order with an
      outstanding entry. */
  function FirstOpen(ledgers: seq<seq<StoreProduct>>): (r: Option<nat>)
    ensures r == FirstWithOutstanding(ledgers)
  {
    if ledgers == [] then None
    else
      CompletedIffNothingLeft(ledgers[0]);
      FirstOutstandingIsHead(ledgers[0]);
      if !IsCompleted(ledgers[0]) && OutstandingItems(ledgers[0]) != [] then Some(0)
      else
        match FirstOpen(ledgers[1..])
        case None => None
        case Some(i) => Some(i + 1)
  }

  /** Floor division has one answer: two quotients that bracket `x` agree. */
  lemma FloorUnique(x: int, w: int, a: int, b: int)
    requires w > 0
    requires a * w <= x < (a + 1) * w && b * w <= x < (b + 1) * w
    ensures a == b
  {
    if a < b {
      MulLe(a + 1, b, w);
    } else if b < a {
      MulLe(b + 1, a, w);
    }
  }

  /** Reserving `q` more units of a product lowers the drone's free capacity for
      that product by exactly `q`. */
  lemma FreeAfterReserve(x: int, w: int, n: int, q: int)
    requires w > 0 && n * w <= x < (n + 1) * w
    ensures (n - q) * w <= x - q * w < (n - q + 1) * w
  {
    MulDistributes(n, -q, w);
    MulDistributes(n + 1, -q, w);
  }

  /** Two reservations of one product add up to one reservation of their sum. */
  lemma ReserveTwice(items: seq<StoreProduct>, p: Product, a: int, b: int)
    ensures PayloadReserve(PayloadReserve(items, p, a), p, b) == PayloadReserve(items, p, a + b)
  {
    match FindProduct(items, p.id)
    case None =>
      var once := items + [StoreProduct(p, 0, a)];
      var f := FindProduct(once, p.id);
      assert once[|items|].product.id == p.id;
      assert f == Some(|items|);
    case Some(k) =>
      FindProductSameProducts(items, Adjust(items, k, 0, a), p.id);
  }

  /** The drone's payload after reserving each load of `picks` in turn. */
  function ReserveAll(payload: seq<StoreProduct>, p: Product, picks: seq<Pick>): seq<StoreProduct>
  {
    if picks == [] then payload
    else PayloadReserve(ReserveAll(payload, p, picks[..|picks| - 1]), p, picks[|picks| - 1].quantity)
  }

  lemma ReserveAllAppend(payload: seq<StoreProduct>, p: Product, picks: seq<Pick>, x: Pick)
    ensures ReserveAll(payload, p, picks + [x]) == PayloadReserve(ReserveAll(payload, p, picks), p, x.quantity)
  {
    assert (picks + [x])[..|picks|] == picks;
  }

  /** Reserving the loads one by one is one reservation of their total. */
  lemma {:induction false} ReserveAllOnce(payload: seq<StoreProduct>, p: Product, picks: seq<Pick>)
    requires picks != []
    ensures ReserveAll(payload, p, picks) == PayloadReserve(payload, p, Total(picks))
    decreases |picks|
  {
    var prev := picks[..|picks| - 1];
    if prev != [] {
      ReserveAllOnce(payload, p, prev);
      ReserveTwice(payload, p, Total(prev), picks[|picks| - 1].quantity);
    }
  }

  lemma AdjustNothing(items: seq<StoreProduct>, k: nat)
    requires k < |items|
    ensures Adjust(items, k, 0, 0) == items
  {
  }

  /** What the warehouse loop starts from: the warehouses' and the order's
      ledgers, the warehouses' available counts of the product, the entry's
      available count and how many units fit on the drone. */
  datatype Start = Start(ws0: seq<seq<StoreProduct>>, order0: seq<StoreProduct>,
                         avail: seq<int>, need0: int, free0: int)

  /** The starting counts are those of well-formed ledgers: warehouse ledgers
      laid out by the catalogue, an order ledger holding the product at `k`. */
  ghost predicate StartOk(s: Start, k: nat, product: Product, catalog: seq<Product>)
  {
    && WellFormedCatalog(catalog) && Catalogued(product, catalog)
    && |s.ws0| == |s.avail|
    && (forall j :: 0 <= j < |s.ws0| ==>
         WarehouseStock(s.ws0[j], catalog) && s.avail[j] == s.ws0[j][product.id].available)
    && AllNonNegative(s.avail)
    && OrderLedger(s.order0, catalog) && k < |s.order0| && s.order0[k].product == product
    && FindProduct(s.order0, product.id) == Some(k)
    && s.need0 == s.order0[k].available >= 0 && s.free0 >= 0
  }

  /** What the loop reads off the start: where each ledger keeps the product,
      and the counts it begins from. */
  ghost predicate Layout(s: Start, k: nat, product: Product)
  {
    && |s.ws0| == |s.avail| && 0 <= product.id
    && (forall j :: 0 <= j < |s.ws0| ==>
         && product.id < |s.ws0[j]| && FindProduct(s.ws0[j], product.id) == Some(product.id)
         && s.avail[j] == s.ws0[j][product.id].available)
    && AllNonNegative(s.avail)
    && k < |s.order0| && FindProduct(s.order0, product.id) == Some(k)
    && s.need0 == s.order0[k].available >= 0 && s.free0 >= 0
  }

  /** The warehouse ledgers after the loads of `plan`: warehouse `j`'s entry for
      product `id` has moved Taken(plan, j) units from available to reserved. */
  function Moved(ledgers: seq<seq<StoreProduct>>, id: nat, plan: seq<Pick>): (r: seq<seq<StoreProduct>>)
    ensures |r| == |ledgers|
  {
    seq(|ledgers|, j requires 0 <= j < |ledgers| =>
      if id < |ledgers[j]| then Adjust(ledgers[j], id, -Taken(plan, j), Taken(plan, j)) else ledgers[j])
  }

  lemma HoldMoved(s: Start, product: Product, plan: seq<Pick>, ws: seq<seq<StoreProduct>>)
    requires WarehousesHold(s, product, plan, ws)
    ensures ws == Moved(s.ws0, product.id, plan)
  {
  }

  /** Each warehouse entry for the product has given what `plan` loaded from it. */
  ghost predicate WarehousesHold(s: Start, product: Product, plan: seq<Pick>, ws: seq<seq<StoreProduct>>)
  {
    && |ws| == |s.ws0| && 0 <= product.id
    && (forall j :: 0 <= j < |ws| ==>
         product.id < |s.ws0[j]| && ws[j] == Adjust(s.ws0[j], product.id, -Taken(plan, j), Taken(plan, j)))
  }

  /** The ledgers after the loads of `plan`: each warehouse entry has given
      what was loaded from it and the order entry has reserved all of it. */
  ghost predicate Holding(s: Start, k: nat, product: Product, plan: seq<Pick>,
                          ws: seq<seq<StoreProduct>>, orderItems: seq<StoreProduct>)
  {
    && WarehousesHold(s, product, plan, ws) && k < |s.order0|
    && orderItems == Adjust(s.order0, k, -Total(plan), Total(plan))
  }

  /** A load of `q > 0` units at warehouse `i`, which nothing was loaded from yet,
      moves that warehouse's entry on by `q` and leaves the others alone. */
  lemma WarehousesStep(s: Start, product: Product, plan: seq<Pick>, i: nat, q: int, ws: seq<seq<StoreProduct>>)
    requires WarehousesHold(s, product, plan, ws) && i < |ws| && q > 0 && Taken(plan, i) == 0
    ensures product.id < |ws[i]|
    ensures WarehousesHold(s, product, plan + [Pick(i, q)], ws[i := Adjust(ws[i], product.id, -q, q)])
  {
    var pid := product.id;
    var next := plan + [Pick(i, q)];
    var ws' := ws[i := Adjust(ws[i], pid, -q, q)];
    forall j | 0 <= j < |ws|
      ensures pid < |s.ws0[j]| && ws'[j] == Adjust(s.ws0[j], pid, -Taken(next, j), Taken(next, j))
    {
      TakenAppend(plan, Pick(i, q), j);
      if j == i {
        AdjustThenAdjust(s.ws0[i], pid, 0, 0, -q, q);
      }
    }
  }

  /** One more load of `q > 0` units at warehouse `i` moves Holding on to the loads with it. */
  lemma HoldingStep(s: Start, k: nat, product: Product, plan: seq<Pick>, i: nat, q: int,
                    ws: seq<seq<StoreProduct>>, orderItems: seq<StoreProduct>)
    requires Holding(s, k, product, plan, ws, orderItems)
    requires i < |ws| && q > 0 && Taken(plan, i) == 0
    ensures k < |orderItems| && product.id < |ws[i]|
    ensures Holding(s, k, product, plan + [Pick(i, q)], ws[i := Adjust(ws[i], product.id, -q, q)],
                    Adjust(orderItems, k, -q, q))
  {
    var t := Total(plan);
    TotalAppend(plan, Pick(i, q));
    WarehousesStep(s, product, plan, i, q, ws);
    AdjustThenAdjust(s.order0, k, -t, t, -q, q);
  }

  /** What Holding says about warehouse `i` before the loop reaches it: its
      entry for the product is untouched, and the order entry and the drone
      have room for exactly what Greedy has not yet taken. */
  lemma HoldingFacts(s: Start, k: nat, product: Product, plan: seq<Pick>, i: nat,
                     ws: seq<seq<StoreProduct>>, orderItems: seq<StoreProduct>)
    requires Layout(s, k, product) && i < |s.avail|
    requires Holding(s, k, product, plan, ws, orderItems)
    requires plan == Greedy(s.avail, i, s.need0, s.free0)
    ensures 0 <= Total(plan) <= s.need0 && Total(plan) <= s.free0 && Taken(plan, i) == 0
    ensures product.id < |ws[i]| && FindProduct(ws[i], product.id) == Some(product.id)
    ensures ws[i][product.id].available == s.avail[i] >= 0
    ensures k < |orderItems| && FindProduct(orderItems, product.id) == Some(k)
    ensures orderItems[k].available == s.need0 - Total(plan) >= 0
  {
    GreedyTotal(s.avail, i, s.need0, s.free0);
    AscendingTaken(plan, s.avail, i, i);
    FindProductSameProducts(s.ws0[i], ws[i], product.id);
    FindProductSameProducts(s.order0, orderItems, product.id);
  }

  /** Store.reserve on a ledger whose entry for the product is at `k` and has
      at least `q` available: it succeeds, and moves `q` units at `k`. */
  lemma ReserveAt(items: seq<StoreProduct>, p: Product, q: int, k: nat)
    requires FindProduct(items, p.id) == Some(k) && items[k].available >= q
    ensures LedgerReserve(items, p, q) == Ok(Adjust(items, k, -q, q))
  {
  }

  /** A positive load at warehouse `i` that neither the order entry nor the
      warehouse falls short of: both reservations succeed, and Holding moves on
      to the loads with it. */
  lemma HoldingReserve(s: Start, k: nat, product: Product, plan: seq<Pick>, i: nat,
                       ws: seq<seq<StoreProduct>>, orderItems: seq<StoreProduct>, q: int)
    requires Layout(s, k, product) && i < |s.avail|
    requires Holding(s, k, product, plan, ws, orderItems)
    requires plan == Greedy(s.avail, i, s.need0, s.free0)
    requires k < |orderItems| && product.id < |ws[i]|
    requires 0 < q <= orderItems[k].available && q <= ws[i][product.id].available
    ensures LedgerReserve(ws[i], product, q).Ok? && LedgerReserve(orderItems, product, q).Ok?
    ensures Holding(s, k, product, plan + [Pick(i, q)],
                    ws[i := LedgerReserve(ws[i], product, q).value], LedgerReserve(orderItems, product, q).value)
  {
    HoldingFacts(s, k, product, plan, i, ws, orderItems);
    HoldingStep(s, k, product, plan, i, q, ws, orderItems);
    ReserveAt(ws[i], product, q, product.id);
    ReserveAt(orderItems, product, q, k);
  }

  /** The starting counts read off well-formed ledgers are a well-formed start,
      and Holding holds of them with nothing loaded. */
  lemma StartFrom(s: Start, k: nat, product: Product, catalog: seq<Product>)
    requires WellFormedCatalog(catalog) && Catalogued(product, catalog)
    requires |s.ws0| == |s.avail|
    requires forall j :: 0 <= j < |s.ws0| ==>
      WarehouseStock(s.ws0[j], catalog) && s.avail[j] == StockOf(s.ws0[j], product.id)
    requires OrderLedger(s.order0, catalog) && k < |s.order0| && s.order0[k].product == product
    requires s.need0 == s.order0[k].available && s.free0 >= 0
    ensures StartOk(s, k, product, catalog) && Layout(s, k, product)
    ensures Holding(s, k, product, [], s.ws0, s.order0)
  {
    forall j | 0 <= j < |s.ws0|
      ensures s.avail[j] == s.ws0[j][product.id].available && s.avail[j] >= 0
      ensures s.ws0[j] == Adjust(s.ws0[j], product.id, 0, 0)
    {
      FindInStock(s.ws0[j], catalog, product);
      AdjustNothing(s.ws0[j], product.id);
    }
    FindDistinct(s.order0, k);
    AdjustNothing(s.order0, k);
  }

  /** Ascending picks are all positive: they add up to more than zero unless there are none. */
  lemma {:induction false} AscendingTotal(r: seq<Pick>, avail: seq<int>, hi: int)
    requires Ascending(r, avail, hi)
    ensures Total(r) >= 0 && (r != [] <==> Total(r) > 0)
    decreases |r|
  {
    if r != [] {
      AscendingTotal(r[..|r| - 1], avail, r[|r| - 1].warehouse);
    }
  }

  /** Greedy over all the warehouses loads within each one's stock, no more
      than the entry needs and no more than fits. */
  lemma GreedyPlan(avail: seq<int>, need: int, free: int, plan: seq<Pick>)
    requires need >= 0 && free >= 0 && AllNonNegative(avail)
    requires plan == Greedy(avail, |avail|, need, free)
    ensures Ascending(plan, avail, |avail|) && 0 <= Total(plan) <= need && Total(plan) <= free
  {
    GreedyTotal(avail, |avail|, need, free);
  }

  /** What the ledgers come to after the whole loop: each warehouse entry has
      given what was loaded from it, no more than it had, and the entry has
      reserved it; the warehouse and order ledgers are still well formed. */
  lemma LoadsSettle(s: Start, k: nat, product: Product, catalog: seq<Product>, plan: seq<Pick>,
                    ws: seq<seq<StoreProduct>>, orderItems: seq<StoreProduct>)
    requires StartOk(s, k, product, catalog)
    requires Holding(s, k, product, plan, ws, orderItems)
    requires Ascending(plan, s.avail, |s.avail|) && Total(plan) <= s.need0 && Total(plan) <= s.free0
    ensures forall j :: 0 <= j < |ws| ==> WarehouseStock(ws[j], catalog)
    ensures OrderLedger(orderItems, catalog)
    ensures ws == Moved(s.ws0, product.id, plan)
    ensures plan != [] <==> Total(plan) > 0
  {
    AscendingTotal(plan, s.avail, |s.avail|);
    SettleStock(s, k, product, catalog, plan, ws);
    AdjustKeepsLedger(s.order0, catalog, k, Total(plan));
  }

  /** The warehouse half of LoadsSettle. */
  lemma SettleStock(s: Start, k: nat, product: Product, catalog: seq<Product>, plan: seq<Pick>,
                    ws: seq<seq<StoreProduct>>)
    requires StartOk(s, k, product, catalog)
    requires WarehousesHold(s, product, plan, ws) && Ascending(plan, s.avail, |s.avail|)
    ensures forall j :: 0 <= j < |ws| ==> WarehouseStock(ws[j], catalog)
    ensures ws == Moved(s.ws0, product.id, plan)
  {
    HoldMoved(s, product, plan, ws);
    MovedStock(s.ws0, s.avail, product, catalog, plan);
  }

  /** Loads within each warehouse's stock keep every warehouse ledger well formed. */
  lemma MovedStock(ws0: seq<seq<StoreProduct>>, avail: seq<int>, product: Product, catalog: seq<Product>,
                   plan: seq<Pick>)
    requires Catalogued(product, catalog) && |ws0| == |avail|
    requires forall j :: 0 <= j < |ws0| ==>
      WarehouseStock(ws0[j], catalog) && avail[j] == ws0[j][product.id].available
    requires Ascending(plan, avail, |avail|)
    ensures forall j :: 0 <= j < |ws0| ==> WarehouseStock(Moved(ws0, product.id, plan)[j], catalog)
  {
    forall j | 0 <= j < |ws0|
      ensures WarehouseStock(Moved(ws0, product.id, plan)[j], catalog)
    {
      AscendingTaken(plan, avail, |avail|, j);
      AdjustKeepsStock(ws0[j], catalog, product.id, Taken(plan, j));
    }
  }

  /** The warehouse loop of getCommandsFor. It loads the product of order entry
      `k` from the warehouses in list order: a warehouse without the product is
      passed over; otherwise the load is the least of what the entry needs, what
      the warehouse has and what still fits on the drone (`free` units before
      the loop), reserved at the warehouse and at the order. The loop ends at
      the first zero load or once the entry is covered. The loads it emits are
      Greedy's and each ledger moves by what was loaded from it. The drone's
      own reservation of the `delivered` units is left to the caller. */
  method LoadFromWarehouses(warehouses: seq<Store>, order: Store, k: nat, product: Product, droneId: int,
                            free: int, ghost catalog: seq<Product>)
    returns (commands: seq<Command>, delivered: int, ghost plan: seq<Pick>)
    requires WellFormedCatalog(catalog)
    requires forall j :: 0 <= j < |warehouses| ==>
      warehouses[j].id == j && WarehouseStock(warehouses[j].items, catalog)
    requires order !in warehouses
    requires OrderLedger(order.items, catalog) && k < |order.items|
    requires product == order.items[k].product && Catalogued(product, catalog) && free >= 0
    modifies warehouses, order
    ensures plan == Greedy(Availability(old(Ledgers(warehouses)), product.id), |warehouses|,
                           old(order.items[k].available), free)
    ensures commands == Loads(plan, droneId, product)
    ensures delivered == Total(plan) && 0 <= delivered <= free && (delivered > 0 <==> plan != [])
    ensures order.items == Adjust(old(order.items), k, -delivered, delivered)
    ensures Ledgers(warehouses) == Moved(old(Ledgers(warehouses)), product.id, plan)
    ensures forall j :: 0 <= j < |warehouses| ==> WarehouseStock(warehouses[j].items, catalog)
    ensures OrderLedger(order.items, catalog)
  {
    var ws, orderItems;
    commands, plan, ws, orderItems, delivered :=
      LoadPlan(Ledgers(warehouses), order.items, k, product, droneId, free, catalog);
    forall i, j | 0 <= i < j < |warehouses| ensures warehouses[i] != warehouses[j] {
      assert warehouses[i].id != warehouses[j].id;
    }
    order.items := orderItems;
    WriteBack(warehouses, ws);
    assert order.items == orderItems && Ledgers(warehouses) == ws;
  }

  /** The warehouse loop on the ledgers: `ws0` of the warehouses, `orderItems0`
      of the order, and `free0` the units of the product that fit on the drone
      before the loop. It returns the Load commands, the ledgers after them and
      `delivered`, the units loaded (quantityToDeliver). */
  method LoadPlan(ws0: seq<seq<StoreProduct>>, orderItems0: seq<StoreProduct>, k: nat, product: Product,
                  droneId: int, free0: int, ghost catalog: seq<Product>)
    returns (commands: seq<Command>, ghost plan: seq<Pick>, ws: seq<seq<StoreProduct>>,
             orderItems: seq<StoreProduct>, delivered: int)
    requires WellFormedCatalog(catalog) && Catalogued(product, catalog)
    requires forall j :: 0 <= j < |ws0| ==> WarehouseStock(ws0[j], catalog)
    requires OrderLedger(orderItems0, catalog) && k < |orderItems0| && orderItems0[k].product == product
    requires free0 >= 0
    ensures plan == Greedy(Availability(ws0, product.id), |ws0|, orderItems0[k].available, free0)
    ensures commands == Loads(plan, droneId, product)
    ensures delivered == Total(plan) && 0 <= delivered <= free0 && (delivered > 0 <==> plan != [])
    ensures orderItems == Adjust(orderItems0, k, -delivered, delivered)
    ensures ws == Moved(ws0, product.id, plan)
    ensures forall j :: 0 <= j < |ws| ==> WarehouseStock(ws[j], catalog)
    ensures OrderLedger(orderItems, catalog)
  {
    ghost var s := Start(ws0, orderItems0, Availability(ws0, product.id), orderItems0[k].available, free0);
    StartFrom(s, k, product, catalog);
    commands, plan, ws, orderItems, delivered := LoadLoop(ws0, orderItems0, k, product, droneId, free0, s);
    LoadsDone(s, k, product, catalog, droneId, commands, plan, ws, orderItems, delivered);
  }

  /** LoadPlan's promise, from the state the loop ends in. */
  lemma LoadsDone(s: Start, k: nat, product: Product, catalog: seq<Product>, droneId: int,
                  commands: seq<Command>, plan: seq<Pick>, ws: seq<seq<StoreProduct>>,
                  orderItems: seq<StoreProduct>, delivered: int)
    requires StartOk(s, k, product, catalog)
    requires Turned(s, k, product, droneId, |s.ws0|, true, commands, plan, ws, orderItems, delivered)
    ensures plan == Greedy(s.avail, |s.ws0|, s.order0[k].available, s.free0)
    ensures commands == Loads(plan, droneId, product)
    ensures delivered == Total(plan) && 0 <= delivered <= s.free0 && (delivered > 0 <==> plan != [])
    ensures orderItems == Adjust(s.order0, k, -delivered, delivered)
    ensures ws == Moved(s.ws0, product.id, plan)
    ensures forall j :: 0 <= j < |ws| ==> WarehouseStock(ws[j], catalog)
    ensures OrderLedger(orderItems, catalog)
  {
    GreedyPlan(s.avail, s.need0, s.free0, plan);
    LoadsSettle(s, k, product, catalog, plan, ws, orderItems);
  }

  /** Where the loop stands after warehouse `i`: the loads so far are Greedy's
      over the first `i` warehouses (over all of them once `stop` is set), the
      commands are their Load commands, `delivered` their units, and the
      ledgers have moved by them. */
  ghost predicate Turned(s: Start, k: nat, product: Product, droneId: int, i: nat, stop: bool,
                         commands: seq<Command>, plan: seq<Pick>, ws: seq<seq<StoreProduct>>,
                         orderItems: seq<StoreProduct>, delivered: int)
  {
    && i <= |s.avail|
    && plan == Greedy(s.avail, i, s.need0, s.free0)
    && (stop ==> plan == Greedy(s.avail, |s.avail|, s.need0, s.free0))
    && commands == Loads(plan, droneId, product)
    && delivered == Total(plan)
    && Holding(s, k, product, plan, ws, orderItems)
  }

  /** The loop itself, from the ledgers at the start `s` to the loads of Greedy
      over all the warehouses. */
  method LoadLoop(ws0: seq<seq<StoreProduct>>, orderItems0: seq<StoreProduct>, k: nat, product: Product,
                  droneId: int, free0: int, ghost s: Start)
    returns (commands: seq<Command>, ghost plan: seq<Pick>, ws: seq<seq<StoreProduct>>,
             orderItems: seq<StoreProduct>, delivered: int)
    requires Layout(s, k, product) && |ws0| == |s.avail|
    requires s.ws0 == ws0 && s.order0 == orderItems0 && s.free0 == free0
    requires Holding(s, k, product, [], ws0, orderItems0)
    ensures Turned(s, k, product, droneId, |ws0|, true, commands, plan, ws, orderItems, delivered)
  {
    ws, orderItems, delivered := ws0, orderItems0, 0;
    commands := [];
    plan := [];
    var i := 0;
    var stop := false;
    while i < |ws0| && !stop
      invariant i <= |ws0|
      invariant Turned(s, k, product, droneId, i, stop, commands, plan, ws, orderItems, delivered)
    {
      commands, plan, stop, ws, orderItems, delivered :=
        LoadTurn(ws, orderItems, k, product, droneId, free0, delivered, i, s, commands, plan);
      i := i + 1;
    }
  }

  /** One turn of the loop, at warehouse `i` after the loads of `plan`: a
      warehouse without the product is passed over; otherwise the load is the
      least of what the entry needs, what the warehouse has and what still fits
      on the drone. A zero load ends the loop; a positive one is reserved at
      the warehouse and at the order, adds a Load command and ends the loop
      once the entry is covered. What still fits is `free0 - delivered`, which
      is the drone's free capacity once it holds the loads so far (see
      FreeAfterLoads and DroneReserve). */
  method LoadTurn(ws: seq<seq<StoreProduct>>, orderItems: seq<StoreProduct>, k: nat, product: Product,
                  droneId: int, free0: int, delivered: int, i: nat, ghost s: Start,
                  commands: seq<Command>, ghost plan: seq<Pick>)
    returns (commands': seq<Command>, ghost plan': seq<Pick>, stop: bool, ws': seq<seq<StoreProduct>>,
             orderItems': seq<StoreProduct>, delivered': int)
    requires Layout(s, k, product) && i < |s.avail| && s.free0 == free0
    requires Turned(s, k, product, droneId, i, false, commands, plan, ws, orderItems, delivered)
    ensures Turned(s, k, product, droneId, i + 1, stop, commands', plan', ws', orderItems', delivered')
  {
    ws', orderItems', delivered', commands' := ws, orderItems, delivered, commands;
    HoldingFacts(s, k, product, plan, i, ws, orderItems);
    plan' := plan;
    stop := false;
    var available := ws[i][FindProduct(ws[i], product.id).value].available;
    if available == 0 {
      GreedySkip(s.avail, i, s.need0, s.free0);
    } else {
      var q := Min3(orderItems[k].available, available, free0 - delivered);
      if q == 0 {
        stop := true;
        GreedyNext(s.avail, i, |s.avail|, s.need0, s.free0, plan, orderItems[k].available, available, free0 - delivered, q, true);
      } else {
        HoldingReserve(s, k, product, plan, i, ws, orderItems, q);
        ws' := ws[i := LedgerReserve(ws[i], product, q).value];
        orderItems' := LedgerReserve(orderItems, product, q).value;
        delivered' := delivered + q;
        LoadsAppend(plan, Pick(i, q), droneId, product);
        commands' := commands + [Load(droneId, i, product, q)];
        stop := orderItems'[k].available == 0;
        GreedyNext(s.avail, i, |s.avail|, s.need0, s.free0, plan, orderItems[k].available, available, free0 - delivered, q, stop);
        plan' := plan + [Pick(i, q)];
        TotalAppend(plan, Pick(i, q));
      }
    }
  }

  /** What fits on the drone after `t` more units of weight `w`: `t` fewer units. */
  lemma FreeAfterLoads(capacity: int, weight0: int, w: int, free0: int, t: int, weight: int)
    requires w > 0 && free0 == (capacity - weight0) / w && weight == weight0 + t * w
    ensures (capacity - weight) / w == free0 - t
  {
    var x := capacity - weight0;
    FreeAfterReserve(x, w, free0, t);
    assert x - t * w == capacity - weight;
    FloorUnique(x - t * w, w, (x - t * w) / w, free0 - t);
  }

  lemma AdjustThenAdjust(items: seq<StoreProduct>, k: nat, a1: int, r1: int, a2: int, r2: int)
    requires k < |items|
    ensures Adjust(Adjust(items, k, a1, r1), k, a2, r2) == Adjust(items, k, a1 + a2, r1 + r2)
  {
  }

  /** The warehouse loop on the model: the order's entry `k` is loaded from
      the model's warehouses, and the model stays valid. The drone is not
      touched. */
  method LoadOrder(model: Model, order: Store, k: nat, droneId: int, free: int)
    returns (commands: seq<Command>, delivered: int, ghost plan: seq<Pick>)
    requires model.Valid() && order in model.allOrders && k < |order.items| && free >= 0
    modifies model.warehouses, order
    ensures model.Valid()
    ensures var product := old(order.items[k].product);
      && plan == Greedy(Availability(old(Ledgers(model.warehouses)), product.id), |model.warehouses|,
                        old(order.items[k].available), free)
      && commands == Loads(plan, droneId, product)
      && delivered == Total(plan) && 0 <= delivered <= free && (delivered > 0 <==> plan != [])
      && Shifted(old(order.items), order.items, k, delivered)
      && Ledgers(model.warehouses) == Moved(old(Ledgers(model.warehouses)), product.id, plan)
    ensures forall o :: o in model.allOrders && o != order ==> o.items == old(o.items)
  {
    commands, delivered, plan := LoadEntry(model, order, k, droneId, free);
    assert model.Shape() && model.Pending() && model.DronesReady();
    forall i | 0 <= i < |model.allOrders|
      ensures OrderLedger(model.allOrders[i].items, model.products)
    {
      if model.allOrders[i] != order {
        assert model.allOrders[i].items == old(model.allOrders[i].items);
      }
    }
  }

  /** LoadFromWarehouses on the model's warehouses: the stock and order
      ledgers stay well formed and no other order changes. */
  method LoadEntry(model: Model, order: Store, k: nat, droneId: int, free: int)
    returns (commands: seq<Command>, delivered: int, ghost plan: seq<Pick>)
    requires model.Valid() && order in model.allOrders && k < |order.items| && free >= 0
    modifies model.warehouses, order
    ensures var product := old(order.items[k].product);
      && plan == Greedy(Availability(old(Ledgers(model.warehouses)), product.id), |model.warehouses|,
                        old(order.items[k].available), free)
      && commands == Loads(plan, droneId, product)
      && delivered == Total(plan) && 0 <= delivered <= free && (delivered > 0 <==> plan != [])
      && Shifted(old(order.items), order.items, k, delivered)
      && Ledgers(model.warehouses) == Moved(old(Ledgers(model.warehouses)), product.id, plan)
    ensures forall j :: 0 <= j < |model.warehouses| ==> WarehouseStock(model.warehouses[j].items, model.products)
    ensures OrderLedger(order.items, model.products)
    ensures forall o :: o in model.allOrders && o != order ==> o.items == old(o.items)
  {
    OrderIsNoWarehouse(model, order);
    var product := order.items[k].product;
    commands, delivered, plan :=
      LoadFromWarehouses(model.warehouses, order, k, product, droneId, free, model.products);
    forall o | o in model.allOrders && o != order
      ensures o.items == old(o.items)
    {
      OrderIsNoWarehouse(model, o);
    }
  }

  /** The drone reserves `delivered` units, the total of the loads in `plan`,
      in one step; they fit because they are within its free capacity. */
  method ReserveTotal(drone: Drone, product: Product, delivered: int, ghost plan: seq<Pick>)
    requires drone.Valid() && Catalogued(product, drone.catalog)
    requires delivered == Total(plan) && (delivered > 0 <==> plan != [])
    requires 0 <= delivered <= drone.FreeCapacityFor(product)
    modifies drone
    ensures drone.Valid()
    ensures drone.payload == ReserveAll(old(drone.payload), product, plan)
    ensures drone.totalWeight == old(drone.totalWeight) + delivered * product.weight
    ensures drone.FreeCapacityFor(product) == old(drone.FreeCapacityFor(product)) - delivered
    ensures drone.commandQueue == old(drone.commandQueue) && drone.enqueued == old(drone.enqueued)
    ensures drone.location == old(drone.location)
    ensures drone.timeToCompleteActiveCommand == old(drone.timeToCompleteActiveCommand)
  {
    if delivered > 0 {
      ghost var weight0, free0 := drone.totalWeight, drone.FreeCapacityFor(product);
      MulLe(delivered, free0, product.weight);
      ReserveAllOnce(drone.payload, product, plan);
      var o := drone.Reserve(product, delivered);
      FreeAfterLoads(drone.capacity, weight0, product.weight, free0, delivered, drone.totalWeight);
    }
  }

  /** The drone reserves the units the warehouse loop loaded, all at once,
      and the model stays valid: only the drone's payload changes. */
  method DroneReserve(model: Model, drone: Drone, product: Product, delivered: int, ghost plan: seq<Pick>)
    requires model.Valid() && drone in model.drones && Catalogued(product, model.products)
    requires delivered == Total(plan) && (delivered > 0 <==> plan != [])
    requires 0 <= delivered <= drone.FreeCapacityFor(product)
    modifies drone
    ensures model.Valid()
    ensures drone.payload == ReserveAll(old(drone.payload), product, plan)
    ensures drone.totalWeight == old(drone.totalWeight) + delivered * product.weight
    ensures drone.FreeCapacityFor(product) == old(drone.FreeCapacityFor(product)) - delivered
    ensures drone.commandQueue == old(drone.commandQueue) && drone.enqueued == old(drone.enqueued)
    ensures drone.location == old(drone.location)
    ensures drone.timeToCompleteActiveCommand == old(drone.timeToCompleteActiveCommand)
    ensures forall o :: o in model.allOrders ==> o.items == old(o.items)
    ensures Ledgers(model.warehouses) == old(Ledgers(model.warehouses))
  {
    ReserveTotal(drone, product, delivered, plan);
  }

  /** `after` is `before` with `t` units of entry `k` moved from available to reserved. */
  predicate Shifted(before: seq<StoreProduct>, after: seq<StoreProduct>, k: nat, t: int)
  {
    k < |before| && after == Adjust(before, k, -t, t)
  }

  /** The loads and the one Deliver for entry `k` of `order`, with every
      reservation they make on the warehouses, the order and the drone. */
  method Serve(model: Model, order: Store, k: nat, drone: Drone) returns (commands: seq<Command>, ghost plan: seq<Pick>)
    requires model.Valid() && drone in model.drones && order in model.allOrders && k < |order.items|
    modifies model.warehouses, order, drone
    ensures model.Valid()
    ensures var product := old(order.items[k].product);
      && plan == Greedy(Availability(old(Ledgers(model.warehouses)), product.id), |model.warehouses|,
                        old(order.items[k].available), old(drone.FreeCapacityFor(product)))
      && commands == Loads(plan, drone.id, product) + [Deliver(drone.id, order.id, product, Total(plan))]
      && Shifted(old(order.items), order.items, k, Total(plan))
      && Ledgers(model.warehouses) == Moved(old(Ledgers(model.warehouses)), product.id, plan)
      && drone.payload == ReserveAll(old(drone.payload), product, plan)
      && drone.totalWeight == old(drone.totalWeight) + Total(plan) * product.weight
      && drone.FreeCapacityFor(product) == old(drone.FreeCapacityFor(product)) - Total(plan)
    ensures forall o :: o in model.allOrders && o != order ==> o.items == old(o.items)
    ensures drone.commandQueue == old(drone.commandQueue) && drone.enqueued == old(drone.enqueued)
    ensures drone.location == old(drone.location)
    ensures drone.timeToCompleteActiveCommand == old(drone.timeToCompleteActiveCommand)
  {
    var product := order.items[k].product;
    var free := drone.FreeCapacityFor(product);
    var delivered;
    commands, delivered, plan := LoadOrder(model, order, k, drone.id, free);
    DroneReserve(model, drone, product, delivered, plan);
    commands := commands + [Deliver(drone.id, order.id, product, delivered)];
  }

  /** ChopChopDumbAlgorithm: the first-fit policy over a model. */
  class ChopChopAlgorithm {
    const model: Model

    /** init: the policy keeps the model and does no preparation. */
    constructor (model: Model)
      ensures this.model == model
    {
      this.model := model;
    }

    /** getCommandsFor: nothing when no pending order has an outstanding entry.
        Otherwise the first such order's first outstanding entry is loaded from
        the warehouses in list order (Greedy's loads, each reserved at the
        warehouse, the order and the drone), followed by one Deliver of their
        total to the order. */
    method GetCommandsFor(drone: Drone) returns (commands: seq<Command>, ghost plan: seq<Pick>, ghost target: Option<nat>)
      requires model.Valid() && drone in model.drones
      modifies model.warehouses, model.allOrders, drone
      ensures model.Valid()
      ensures target == FirstWithOutstanding(old(Ledgers(model.orders)))
      ensures target.None? ==>
        && commands == [] && Ledgers(model.warehouses) == old(Ledgers(model.warehouses))
        && Ledgers(model.allOrders) == old(Ledgers(model.allOrders)) && unchanged(drone)
      ensures target.Some? ==>
        var order := old(model.orders[target.value]);
        var k := old(FirstOutstanding(order.items).value);
        var product := old(order.items[k].product);
        && plan == Greedy(Availability(old(Ledgers(model.warehouses)), product.id), |model.warehouses|,
                          old(order.items[k].available), old(drone.FreeCapacityFor(product)))
        && commands == Loads(plan, drone.id, product) + [Deliver(drone.id, order.id, product, Total(plan))]
        && Shifted(old(order.items), order.items, k, Total(plan))
        && Ledgers(model.warehouses) == Moved(old(Ledgers(model.warehouses)), product.id, plan)
        && drone.payload == ReserveAll(old(drone.payload), product, plan)
        && drone.totalWeight == old(drone.totalWeight) + Total(plan) * product.weight
        && (forall o :: o in model.allOrders && o != order ==> o.items == old(o.items))
        && drone.commandQueue == old(drone.commandQueue) && drone.enqueued == old(drone.enqueued)
        && drone.location == old(drone.location)
        && drone.timeToCompleteActiveCommand == old(drone.timeToCompleteActiveCommand)
    {
      var r := FirstOpen(Ledgers(model.orders));
      target := r;
      if r.None? {
        return [], [], r;
      }
      var order := model.orders[r.value];
      var k := FirstOutstanding(order.items).value;
      commands, plan := Serve(model, order, k, drone);
    }
  }
}
