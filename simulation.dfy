// Simulation.kt: the clock, the drones served in turn by a policy, order
// completion and scoring, and the solution text.
module Simulations {
  import opened Results
  import opened Products
  import opened Ledger
  import opened Orders
  import opened Commands
  import opened Drones
  import opened World
  import opened ChopChop
  import opened HeavyLifting
  import opened Seqs
  import opened Text

  /** The two implementations of the Algorithm interface a simulation can run. */
  datatype Policy =
    | ChopChopPolicy(chop: ChopChopAlgorithm)
    | HeavyLiftingPolicy(heavy: HeavyLiftingAlgorithm)

  // ---------------------------------------------------------------------------
  // Scoring

  /** The ceiling of `a / b` for a positive `b`: the least multiple of `b` not
      below `a`, counted in `b`s. */
  function CeilDiv(a: int, b: int): (r: int)
    requires b > 0
    ensures (r - 1) * b < a <= r * b
  {
    var f := (-a) / b;
    assert f * b <= -a < (f + 1) * b;
    -f
  }

  /** orderCompleted's score for an order completed at `time`: the share of the
      simulation still left, in per cent, rounded up. */
  function Score(deadline: int, time: int): int
    requires deadline > 0
  {
    CeilDiv((deadline - time) * 100, deadline)
  }

  /** A positive `d` preserves strict order under multiplication, in reverse. */
  lemma FactorLess(x: int, y: int, d: int)
    requires d > 0 && x * d < y * d
    ensures x < y
  {
    assert (y - x) * d == y * d - x * d > 0;
  }

  /** An order completed before the deadline scores between 1 and 100. */
  lemma ScoreRange(deadline: int, time: int)
    requires 0 <= time < deadline
    ensures 1 <= Score(deadline, time) <= 100
  {
    var a := (deadline - time) * 100;
    var r := Score(deadline, time);
    assert 0 * deadline < a <= r * deadline;
    FactorLess(0, r, deadline);
    assert (r - 1) * deadline < a <= 100 * deadline;
    FactorLess(r - 1, 100, deadline);
  }

  /** The later the completion, the lower (or equal) the score. */
  lemma ScoreFalls(deadline: int, t1: int, t2: int)
    requires deadline > 0 && t1 <= t2
    ensures Score(deadline, t2) <= Score(deadline, t1)
  {
    var a1, a2 := (deadline - t1) * 100, (deadline - t2) * 100;
    var r1, r2 := Score(deadline, t1), Score(deadline, t2);
    assert (r2 - 1) * deadline < a2 <= a1 <= r1 * deadline;
    FactorLess(r2 - 1, r1, deadline);
  }

  // ---------------------------------------------------------------------------
  // Solution text

  /** A command's wire form and a line break. */
  function Line(c: Command): string
  {
    ToCommandString(c) + "\n"
  }

  /** Text appended after a head and a body may be appended to the body instead. */
  lemma JoinAfter(head: string, body: string, line: string)
    ensures (head + body) + line == head + (body + line)
  {
  }

  /** Each command on a line of its own. */
  function Rendered(history: seq<Command>): string
  {
    if history == [] then "" else Line(history[0]) + Rendered(history[1..])
  }

  /** toSolutionString: the number of commands on the first line, then one line per command. */
  function SolutionText(history: seq<Command>): string
  {
    IntToString(|history|) + "\n" + Rendered(history)
  }

  /** The lines of the solution: the count, each command's wire form, and the
      empty rest after the final line break. */
  function SolutionLines(history: seq<Command>): (r: seq<string>)
    ensures |r| == |history| + 2
  {
    [IntToString(|history|)] + seq(|history|, i requires 0 <= i < |history| => ToCommandString(history[i])) + [""]
  }

  /** Appending a command appends its line. */
  lemma {:induction false} RenderedSnoc(history: seq<Command>, c: Command)
    ensures Rendered(history + [c]) == Rendered(history) + Line(c)
  {
    if history != [] {
      var h := history + [c];
      assert h[0] == history[0] && h[1..] == history[1..] + [c];
      RenderedSnoc(history[1..], c);
      calc {
        Rendered(h);
        Line(history[0]) + Rendered(history[1..] + [c]);
        Line(history[0]) + (Rendered(history[1..]) + Line(c));
        { JoinAfter(Line(history[0]), Rendered(history[1..]), Line(c)); }
        (Line(history[0]) + Rendered(history[1..])) + Line(c);
        Rendered(history) + Line(c);
      }
    } else {
      assert Rendered([c]) == Line(c) + Rendered([]);
    }
  }

  /** The rendered commands, joined with the final empty line, are the lines joined by line breaks. */
  lemma {:induction false} RenderedJoin(history: seq<Command>)
    ensures Join(seq(|history|, i requires 0 <= i < |history| => ToCommandString(history[i])) + [""], '\n')
         == Rendered(history)
  {
    var lines := seq(|history|, i requires 0 <= i < |history| => ToCommandString(history[i])) + [""];
    if history != [] {
      var rest := seq(|history| - 1, i requires 0 <= i < |history| - 1 => ToCommandString(history[1..][i])) + [""];
      assert lines[1..] == rest;
      RenderedJoin(history[1..]);
    }
  }

  /** No command line holds a line break. */
  lemma NoBreakInCommand(c: Command)
    ensures '\n' !in ToCommandString(c)
  {
    var s := ToCommandString(c);
    var a, b, d, e := IntToString(c.drone), IntToString(c.site), IntToString(c.product.id), IntToString(c.quantity);
    assert s == a + " " + Tag(c) + " " + b + " " + d + " " + e;
    assert '\n' !in a && '\n' !in b && '\n' !in d && '\n' !in e;
  }

  /** The solution text is its lines joined by line breaks, none of which holds one. */
  lemma SolutionJoin(history: seq<Command>)
    ensures Join(SolutionLines(history), '\n') == SolutionText(history)
    ensures forall k :: 0 <= k < |SolutionLines(history)| ==> '\n' !in SolutionLines(history)[k]
  {
    var lines := SolutionLines(history);
    var tail := seq(|history|, i requires 0 <= i < |history| => ToCommandString(history[i])) + [""];
    assert lines == [IntToString(|history|)] + tail;
    RenderedJoin(history);
    assert lines[1..] == tail;
    forall k | 0 <= k < |lines|
      ensures '\n' !in lines[k]
    {
      if 0 < k <= |history| {
        NoBreakInCommand(history[k - 1]);
      }
    }
  }

  /** Splitting the solution text at line breaks gives back its lines: the
      count, then each command, each of which reads back to its fields. */
  lemma SolutionRoundTrip(history: seq<Command>)
    ensures Split(SolutionText(history), '\n') == SolutionLines(history)
    ensures forall i :: 0 <= i < |history| ==>
      ParseCommandString(SolutionLines(history)[i + 1]) == Some(WireFields(history[i].drone, Tag(history[i]),
        history[i].site, history[i].product.id, history[i].quantity))
    ensures ParseInt(SolutionLines(history)[0]) == Some(|history|)
  {
    var lines := SolutionLines(history);
    SolutionJoin(history);
    SplitJoin(lines, '\n');
    forall i | 0 <= i < |history|
      ensures ParseCommandString(lines[i + 1]) == Some(WireFields(history[i].drone, Tag(history[i]),
        history[i].site, history[i].product.id, history[i].quantity))
    {
      CommandStringRoundTrip(history[i]);
    }
    IntRoundTrip(|history|);
  }

  // ---------------------------------------------------------------------------
  // One drone's clock tick

  /** The commands each drone had accepted, drone by drone. */
  ghost function AcceptedBy(drones: seq<Drone>): (r: seq<seq<Command>>)
    reads drones
    ensures |r| == |drones| && forall i :: 0 <= i < |drones| ==> r[i] == drones[i].enqueued
  {
    seq(|drones|, i reads drones requires 0 <= i < |drones| => drones[i].enqueued)
  }

  /** A completed command changes counts only: the site keeps its products
      entry by entry and no count turns negative. */
  lemma CompleteShape(c: Command, site: seq<StoreProduct>, payload: seq<StoreProduct>, weight: int)
    requires Complete(c, site, payload, weight).outcome == Pass
    ensures SameProducts(site, Complete(c, site, payload, weight).site)
    ensures NonNegative(site) ==> NonNegative(Complete(c, site, payload, weight).site)
  {
    var r := LedgerCheckout(site, c.product, c.quantity);
    assert r.Ok?;
  }

  /** A ledger whose products stay entry by entry, and whose counts stay
      non-negative, stays a warehouse stock or an order ledger. */
  lemma ShapeKept(a: seq<StoreProduct>, b: seq<StoreProduct>, catalog: seq<Product>)
    requires SameProducts(a, b) && NonNegative(b)
    ensures WarehouseStock(a, catalog) ==> WarehouseStock(b, catalog)
    ensures OrderLedger(a, catalog) ==> OrderLedger(b, catalog)
  {
    forall i, j | 0 <= i < j < |b|
      ensures IdAt(b, i) == IdAt(a, i) && IdAt(b, j) == IdAt(a, j)
    {
    }
  }

  /** Completing a command at a completed ledger leaves the ledger as it is:
      nothing is reserved there, so a checkout of a positive count throws and
      one of none moves nothing. */
  lemma CompleteAtCompleted(c: Command, site: seq<StoreProduct>, payload: seq<StoreProduct>, weight: int)
    requires c.quantity >= 0 && IsCompleted(site)
    ensures Complete(c, site, payload, weight).site == site
  {
    var r := LedgerCheckout(site, c.product, c.quantity);
    if r.Ok? {
      var k := FindProduct(site, c.product.id).value;
      assert !(site[k].reserved > 0);
      assert r.value[k] == site[k];
      assert r.value == site;
    }
  }

  /** Drone.advanceTime for one of the model's drones: the drone and the
      stores change as Advanced says. When it does not throw, the model is
      still well formed; no drone's record of accepted commands changes; and
      the ledger of a completed order is never touched. */
  method Advance(m: Model, d: Drone) returns (o: Outcome)
    requires m.Valid() && d in m.drones
    modifies d, m.distanceMap.cells, m.warehouses, m.allOrders
    ensures Advanced(d, m.warehouses, m.allOrders, o)
    ensures d.enqueued == old(d.enqueued)
    ensures o.Pass? ==> m.Valid()
    ensures forall x :: x in m.allOrders && old(IsCompleted(x.items)) ==> x.items == old(x.items)
  {
    ghost var ws0, os0 := Ledgers(m.warehouses), Ledgers(m.allOrders);
    ghost var queue0, timer0, loc0, payload0, weight0 :=
      d.commandQueue, d.timeToCompleteActiveCommand, d.location, d.payload, d.totalWeight;
    o := d.AdvanceTime(m.warehouses, m.allOrders);
    forall x | x in m.allOrders && old(IsCompleted(x.items))
      ensures x.items == old(x.items)
    {
      if Arrives(queue0, timer0, loc0, m.warehouses, m.allOrders) && x == Target(queue0[0], m.warehouses, m.allOrders) {
        assert Issued(queue0[0], d.id, d.catalog);
        CompleteAtCompleted(queue0[0], old(x.items), payload0, weight0);
      }
    }
    if o.Pass? {
      forall i | 0 <= i < |m.warehouses|
        ensures WarehouseStock(m.warehouses[i].items, m.products)
      {
        if Arrives(queue0, timer0, loc0, m.warehouses, m.allOrders) && m.warehouses[i] == Target(queue0[0], m.warehouses, m.allOrders) {
          CompleteShape(queue0[0], ws0[i], payload0, weight0);
        }
        ShapeKept(ws0[i], m.warehouses[i].items, m.products);
      }
      forall i | 0 <= i < |m.allOrders|
        ensures OrderLedger(m.allOrders[i].items, m.products)
      {
        if Arrives(queue0, timer0, loc0, m.warehouses, m.allOrders) && m.allOrders[i] == Target(queue0[0], m.warehouses, m.allOrders) {
          CompleteShape(queue0[0], os0[i], payload0, weight0);
        }
        ShapeKept(os0[i], m.allOrders[i].items, m.products);
      }
      assert m.Stocked();
    }
  }

  /** Where a drone stands: its queue, location and countdown. */
  function Position(d: Drone): Motion
    reads d
  {
    Motion(d.commandQueue, d.location, d.timeToCompleteActiveCommand)
  }

  /** A drone that stood at `start` before its turn in a tick stands at `now`
      after it, having been handed `batch`: it travelled as Travel says, and
      the batch, empty unless the drone's queue emptied out, follows what is
      left of its queue. */
  ghost predicate TookTurn(start: Motion, now: Motion, batch: seq<Command>, warehouses: seq<Store>, orders: seq<Store>)
  {
    && (start.queue == [] || InRange(start.queue[0], |warehouses|, |orders|))
    && var next := Travel(start.queue, start.timer, start.location, warehouses, orders);
       && now == Motion(next.queue + batch, next.location, next.timer)
       && (next.queue != [] ==> batch == [])
  }

  /** Where each drone of a list stands. */
  ghost function Positions(drones: seq<Drone>): (r: seq<Motion>)
    reads drones
    ensures |r| == |drones| && forall b :: 0 <= b < |drones| ==> r[b] == Position(drones[b])
  {
    seq(|drones|, b requires 0 <= b < |drones| reads drones => Position(drones[b]))
  }

  /** The first `j` drones took their turns in a tick, drone `b` starting
      from `start[b]`, standing at `now[b]` and handed `batches[b]`; the
      others still stand at their start. */
  ghost predicate TurnsTaken(start: seq<Motion>, now: seq<Motion>, j: nat, batches: seq<seq<Command>>,
                           warehouses: seq<Store>, orders: seq<Store>)
  {
    && |start| == |now| && j <= |now| && |batches| == j
    && (forall b :: 0 <= b < j ==> IssuedTo(batches[b], b) && TookTurn(start[b], now[b], batches[b], warehouses, orders))
    && forall b :: j <= b < |now| ==> now[b] == start[b]
  }

  /** Drone `j` taking its turn, and no other drone moving, extends TurnsTaken
      by one drone. */
  lemma TurnsTakenStep(start: seq<Motion>, before: seq<Motion>, after: seq<Motion>, j: nat,
                     batches: seq<seq<Command>>, added: seq<Command>, warehouses: seq<Store>, orders: seq<Store>)
    requires TurnsTaken(start, before, j, batches, warehouses, orders) && j < |before| == |after|
    requires forall b :: 0 <= b < |after| && b != j ==> after[b] == before[b]
    requires IssuedTo(added, j) && TookTurn(start[j], after[j], added, warehouses, orders)
    ensures TurnsTaken(start, after, j + 1, batches + [added], warehouses, orders)
  {
    var batches' := batches + [added];
    forall b | 0 <= b < j + 1
      ensures IssuedTo(batches'[b], b) && TookTurn(start[b], after[b], batches'[b], warehouses, orders)
    {
      if b < j {
        assert batches'[b] == batches[b] && after[b] == before[b];
      }
    }
  }

  // ---------------------------------------------------------------------------
  // Asking the policy for commands

  /** The objects a policy updates when asked for commands (beyond the model's). */
  function PolicyState(policy: Policy): set<object>
  {
    if policy.HeavyLiftingPolicy? then {policy.heavy} else {}
  }

  /** The policy was initialised over model `m` and is ready to be asked. */
  ghost predicate Serves(policy: Policy, m: Model)
    reads PolicyState(policy)
  {
    match policy
    case ChopChopPolicy(chop) => chop.model == m
    case HeavyLiftingPolicy(heavy) => heavy.model == m && heavy.Valid()
  }

  /** What ChopChopDumbAlgorithm.getCommandsFor answers drone `d` in model `m`:
      nothing when no pending order has an outstanding entry; otherwise, for
      the first such order's first outstanding entry, a Load at each
      warehouse of the greedy plan over the warehouses' stock of that product
      (capped by what the order still needs and by what the drone can still
      carry), then one Deliver of the planned total to the order. */
  ghost function ChopAnswer(m: Model, d: Drone): seq<Command>
    requires m.Valid() && d in m.drones
    reads m, m.orders, m.warehouses, m.allOrders, m.drones, m.distanceMap, m.distanceMap.cells
  {
    match FirstWithOutstanding(Ledgers(m.orders))
    case None => []
    case Some(t) =>
      var order := m.orders[t];
      var k := FirstOutstanding(order.items).value;
      var product := order.items[k].product;
      assert OrderLedger(order.items, m.products) && Catalogued(product, m.products);
      var plan := Greedy(Availability(Ledgers(m.warehouses), product.id), |m.warehouses|,
                         order.items[k].available, d.FreeCapacityFor(product));
      Loads(plan, d.id, product) + [Deliver(d.id, order.id, product, Total(plan))]
  }

  /** What GreedyHeavyLiftingAlgorithm.getCommandsFor answers drone `d`:
      nothing when no payload is left; the next payload's trip when the drone
      can take its weight; otherwise the capacity failure. */
  ghost function HeavyAnswer(heavy: HeavyLiftingAlgorithm, d: Drone): (Outcome, seq<Command>)
    reads heavy, d
  {
    if heavy.cache == [] then (Pass, [])
    else if d.totalWeight + ItemsWeight(heavy.cache[0].items) <= d.capacity then (Pass, TripCommands(d.id, heavy.cache[0]))
    else (Fail(CapacityExceeded), [])
  }

  /** What the policy in use answers drone `d` in model `m`. */
  ghost function Answer(policy: Policy, m: Model, d: Drone): (Outcome, seq<Command>)
    requires m.Valid() && d in m.drones
    reads m, m.orders, m.warehouses, m.allOrders, m.drones, m.distanceMap, m.distanceMap.cells, PolicyState(policy)
  {
    match policy
    case ChopChopPolicy(_) => (Pass, ChopAnswer(m, d))
    case HeavyLiftingPolicy(heavy) => HeavyAnswer(heavy, d)
  }

  /** ChopChopDumbAlgorithm.getCommandsFor: the commands are ChopAnswer's (the
      Greedy plan's Loads, then one Deliver of its total); every one is for
      this drone, for a catalogued product, with a count that is not negative,
      at a site that exists. */
  method ChopChopCommands(m: Model, chop: ChopChopAlgorithm, drone: Drone) returns (commands: seq<Command>)
    requires m.Valid() && chop.model == m && drone in m.drones
    modifies m.warehouses, m.allOrders, drone
    ensures m.Valid()
    ensures commands == old(ChopAnswer(m, drone))
    ensures drone.commandQueue == old(drone.commandQueue) && drone.enqueued == old(drone.enqueued)
    ensures drone.location == old(drone.location)
    ensures drone.timeToCompleteActiveCommand == old(drone.timeToCompleteActiveCommand)
    ensures forall k :: 0 <= k < |commands| ==>
      Issued(commands[k], drone.id, m.products) && InRange(commands[k], |m.warehouses|, |m.allOrders|)
    ensures forall x :: x in m.allOrders && old(IsCompleted(x.items)) ==> x.items == old(x.items)
  {
    ghost var ws0, target0 := Ledgers(m.warehouses), FirstWithOutstanding(Ledgers(m.orders));
    ghost var os0 := Ledgers(m.allOrders);
    ghost var order, k, product, need, free;
    if target0.Some? {
      order := m.orders[target0.value];
      k := FirstOutstanding(order.items).value;
      product := order.items[k].product;
      need, free := order.items[k].available, drone.FreeCapacityFor(product);
      assert OrderLedger(order.items, m.products);
      assert Catalogued(product, m.products) && 0 <= order.id < |m.allOrders|;
    }
    ghost var plan, target;
    commands, plan, target := chop.GetCommandsFor(drone);
    if target0.Some? {
      GreedyPicksOk(Availability(ws0, product.id), |m.warehouses|, need, free);
      ChopCommandsOk(plan, drone.id, product, order.id, |m.warehouses|, |m.allOrders|, m.products);
    }
    forall x | x in m.allOrders && old(IsCompleted(x.items))
      ensures x.items == old(x.items)
    {
      var i :| 0 <= i < |m.allOrders| && m.allOrders[i] == x;
      if target0.None? {
        assert Ledgers(m.allOrders)[i] == os0[i];
      } else {
        assert old(order.items[k].available) > 0;
        assert x != order;
      }
    }
  }

  /** GreedyHeavyLiftingAlgorithm.getCommandsFor: the answer is HeavyAnswer's;
      it fails when the drone cannot take its next payload; otherwise every
      command it hands out is for this drone, for a catalogued product, with a
      count that is not negative, at a site that exists. The stores are not
      touched. */
  method HeavyLiftingCommands(m: Model, heavy: HeavyLiftingAlgorithm, drone: Drone) returns (o: Outcome, commands: seq<Command>)
    requires m.Valid() && heavy.model == m && heavy.Valid() && drone in m.drones
    modifies heavy, drone
    ensures m.Valid() && heavy.Valid()
    ensures (o, commands) == old(HeavyAnswer(heavy, drone))
    ensures heavy.cache == if old(heavy.cache) == [] then [] else old(heavy.cache)[1..]
    ensures drone.commandQueue == old(drone.commandQueue) && drone.enqueued == old(drone.enqueued)
    ensures drone.location == old(drone.location)
    ensures drone.timeToCompleteActiveCommand == old(drone.timeToCompleteActiveCommand)
    ensures o == Pass ==> forall k :: 0 <= k < |commands| ==>
      Issued(commands[k], drone.id, m.products) && InRange(commands[k], |m.warehouses|, |m.allOrders|)
  {
    ghost var cache0 := heavy.cache;
    o, commands := heavy.GetCommandsFor(drone);
    if o == Pass && cache0 != [] {
      TripCommandsOk(drone.id, cache0[0], SettingOf(m), |m.allOrders|);
    }
    forall i | 0 <= i < |m.drones|
      ensures m.drones[i].Valid() && m.drones[i].Addressed(m.warehouses, m.allOrders)
    {
      if m.drones[i] != drone {
        assert m.drones[i].id != drone.id;
      }
    }
  }

  /** Algorithm.getCommandsFor through the policy in use: the answer is
      Answer's. The first-fit policy never fails. The drone's queue is not
      touched and the model stays valid. */
  method CommandsFor(m: Model, policy: Policy, drone: Drone) returns (o: Outcome, commands: seq<Command>)
    requires m.Valid() && Serves(policy, m) && drone in m.drones
    modifies m.warehouses, m.allOrders, drone, PolicyState(policy)
    ensures m.Valid() && Serves(policy, m)
    ensures (o, commands) == old(Answer(policy, m, drone))
    ensures drone.commandQueue == old(drone.commandQueue) && drone.enqueued == old(drone.enqueued)
    ensures drone.location == old(drone.location)
    ensures drone.timeToCompleteActiveCommand == old(drone.timeToCompleteActiveCommand)
    ensures policy.ChopChopPolicy? ==> o == Pass
    ensures o == Pass ==> forall k :: 0 <= k < |commands| ==>
      Issued(commands[k], drone.id, m.products) && InRange(commands[k], |m.warehouses|, |m.allOrders|)
    ensures forall x :: x in m.allOrders && old(IsCompleted(x.items)) ==> x.items == old(x.items)
  {
    match policy
    case ChopChopPolicy(chop) =>
      commands := ChopChopCommands(m, chop, drone);
      o := Pass;
    case HeavyLiftingPolicy(heavy) =>
      o, commands := HeavyLiftingCommands(m, heavy, drone);
  }

  // ---------------------------------------------------------------------------
  // The command history

  /** The commands of a history that are meant for drone `id`, in history order. */
  function ForDrone(history: seq<Command>, id: int): (r: seq<Command>)
    ensures |r| <= |history|
    ensures forall k :: 0 <= k < |r| ==> r[k].drone == id && r[k] in history
  {
    if history == [] then []
    else
      var last := history[|history| - 1];
      ForDrone(history[..|history| - 1], id) + (if last.drone == id then [last] else [])
  }

  /** Filtering a history by drone splits over appending. */
  lemma {:induction false} ForDroneAppend(a: seq<Command>, b: seq<Command>, id: int)
    ensures ForDrone(a + b, id) == ForDrone(a, id) + ForDrone(b, id)
    decreases |b|
  {
    if b == [] {
      assert a + b == a;
    } else {
      var last := b[|b| - 1];
      assert (a + b)[..|a + b| - 1] == a + b[..|b| - 1];
      ForDroneAppend(a, b[..|b| - 1], id);
    }
  }

  /** Appending a command extends the filter of its own drone only. */
  lemma ForDroneSnoc(history: seq<Command>, c: Command, id: int)
    ensures ForDrone(history + [c], id) == ForDrone(history, id) + (if c.drone == id then [c] else [])
  {
    assert (history + [c])[..|history|] == history;
  }

  /** A drone whose accepted commands were its base plus its share of the
      history still has that after one more command is recorded, the command
      joining its list exactly when it is for that drone. */
  lemma AccountStep(before: seq<Command>, after: seq<Command>, base: seq<Command>,
                    history: seq<Command>, c: Command, id: int)
    requires before == base + ForDrone(history, id)
    requires after == if c.drone == id then before + [c] else before
    ensures after == base + ForDrone(history + [c], id)
  {
    ForDroneSnoc(history, c, id);
  }

  /** A batch of commands all for drone `id` passes the filter for `id` whole,
      and the filter for any other drone not at all. */
  lemma {:induction false} ForDroneBatch(cs: seq<Command>, id: int, other: int)
    requires forall k :: 0 <= k < |cs| ==> cs[k].drone == id
    ensures ForDrone(cs, id) == cs
    ensures other != id ==> ForDrone(cs, other) == []
    decreases |cs|
  {
    if cs != [] {
      ForDroneBatch(cs[..|cs| - 1], id, other);
      assert cs[..|cs| - 1] + [cs[|cs| - 1]] == cs;
    }
  }

  /** Drone.enqueueCommand for a command the policy issued to a drone of the
      model: it joins the drone's queue, and the model stays valid. */
  method Enqueue(m: Model, drone: Drone, c: Command)
    requires m.Valid() && drone in m.drones
    requires Issued(c, drone.id, m.products) && InRange(c, |m.warehouses|, |m.allOrders|)
    modifies drone
    ensures m.Valid()
    ensures drone.commandQueue == old(drone.commandQueue) + [c] && drone.enqueued == old(drone.enqueued) + [c]
    ensures drone.location == old(drone.location)
    ensures drone.timeToCompleteActiveCommand == old(drone.timeToCompleteActiveCommand)
  {
    var o := drone.EnqueueCommand(c);
    forall i | 0 <= i < |m.drones|
      ensures m.drones[i].Valid() && m.drones[i].Addressed(m.warehouses, m.allOrders)
    {
      if m.drones[i] != drone {
        assert m.drones[i].id != drone.id;
      }
    }
  }

  // ---------------------------------------------------------------------------
  // Completed orders

  /** The orders of a list whose ledgers are completed, in list order. */
  function Completed(orders: seq<Store>): (r: seq<Store>)
    reads orders
    ensures |r| <= |orders|
    ensures forall k :: 0 <= k < |r| ==> r[k] in orders && IsCompleted(r[k].items)
  {
    if orders == [] then []
    else
      var last := orders[|orders| - 1];
      Completed(orders[..|orders| - 1]) + (if IsCompleted(last.items) then [last] else [])
  }

  /** The orders of a list whose ledgers are not completed, in list order. */
  function Unfinished(orders: seq<Store>): (r: seq<Store>)
    reads orders
    ensures forall k :: 0 <= k < |r| ==> r[k] in orders && !IsCompleted(r[k].items)
  {
    if orders == [] then []
    else
      assert orders == [orders[0]] + orders[1..];
      (if IsCompleted(orders[0].items) then [] else [orders[0]]) + Unfinished(orders[1..])
  }

  /** Leaving out exactly the completed orders of a list leaves its
      unfinished orders, in list order. */
  lemma {:induction false} ExceptCompleted(orders: seq<Store>, d: set<Store>)
    requires forall x :: x in orders ==> (x in d <==> IsCompleted(x.items))
    ensures Except(orders, d) == Unfinished(orders)
  {
    if orders != [] {
      assert forall x :: x in orders[1..] ==> x in orders;
      ExceptCompleted(orders[1..], d);
    }
  }

  /** A completed order of the list occurs in Completed as often as in the
      list; any other order not at all. */
  lemma {:induction false} CompletedCount(orders: seq<Store>, x: Store)
    ensures multiset(Completed(orders))[x] == if IsCompleted(x.items) then multiset(orders)[x] else 0
    decreases |orders|
  {
    if orders != [] {
      var init := orders[..|orders| - 1];
      CompletedCount(init, x);
      assert orders == init + [orders[|orders| - 1]];
    }
  }

  /** What a multiset difference drops from a list is among what was
      subtracted. */
  lemma LeftAreDone<T>(before: seq<T>, after: seq<T>, done: seq<T>)
    requires multiset(after) == multiset(before) - multiset(done)
    ensures forall x :: x in before && x !in after ==> x in done
  {
    forall x | x in before && x !in after
      ensures x in done
    {
      assert multiset(before)[x] > 0 && multiset(after)[x] == 0;
    }
  }

  /** No element occurs twice in a list of distinct elements. */
  lemma {:induction false} DistinctOnce<T>(s: seq<T>, x: T)
    requires forall i, j :: 0 <= i < j < |s| ==> s[i] != s[j]
    ensures multiset(s)[x] <= 1
    decreases |s|
  {
    if s != [] {
      var init := s[..|s| - 1];
      DistinctOnce(init, x);
      assert s == init + [s[|s| - 1]];
      if s[|s| - 1] == x {
        assert x !in init;
      }
    }
  }

  /** A list whose elements occur no more often than in a list of distinct
      elements is itself distinct, and holds only elements of that list. */
  lemma DistinctWithin<T>(s: seq<T>, t: seq<T>)
    requires multiset(s) <= multiset(t)
    requires forall i, j :: 0 <= i < j < |t| ==> t[i] != t[j]
    ensures forall i, j :: 0 <= i < j < |s| ==> s[i] != s[j]
    ensures forall i :: 0 <= i < |s| ==> s[i] in t
  {
    forall i, j | 0 <= i < j < |s|
      ensures s[i] != s[j]
    {
      assert s == s[..j] + [s[j]] + s[j + 1..];
      assert s[i] in s[..j];
      DistinctOnce(t, s[j]);
    }
    forall i | 0 <= i < |s|
      ensures s[i] in t
    {
      assert s[i] in multiset(s);
    }
  }

  /** Completed picks orders out of the list: no order occurs in it more
      often than in the list. */
  lemma CompletedWithin(orders: seq<Store>)
    ensures multiset(Completed(orders)) <= multiset(orders)
  {
    forall x
      ensures multiset(Completed(orders))[x] <= multiset(orders)[x]
    {
      CompletedCount(orders, x);
    }
  }

  /** While the completed orders `done` of a list of distinct orders are
      removed one by one, the next one to remove is still pending. */
  lemma StillPending(orders0: seq<Store>, done: seq<Store>, orders: seq<Store>, i: nat)
    requires multiset(done) <= multiset(orders0)
    requires forall a, b :: 0 <= a < b < |orders0| ==> orders0[a] != orders0[b]
    requires i < |done| && multiset(orders) == multiset(orders0) - multiset(done[..i])
    ensures done[i] in orders
  {
    var x := done[i];
    DistinctOnce(orders0, x);
    assert done == done[..i] + [x] + done[i + 1..];
    assert multiset(done)[x] == multiset(done[..i])[x] + 1 + multiset(done[i + 1..])[x];
    assert x in multiset(orders);
  }

  /** Once the completed orders of a list of distinct orders are taken out,
      no completed order is left. */
  lemma NoneCompletedLeft(orders: seq<Store>, done: seq<Store>, rest: seq<Store>)
    requires forall a, b :: 0 <= a < b < |orders| ==> orders[a] != orders[b]
    requires done == Completed(orders) && multiset(rest) == multiset(orders) - multiset(done)
    ensures forall k :: 0 <= k < |rest| ==> !IsCompleted(rest[k].items)
  {
    forall k | 0 <= k < |rest|
      ensures !IsCompleted(rest[k].items)
    {
      var x := rest[k];
      CompletedCount(orders, x);
      DistinctOnce(orders, x);
      assert x in multiset(rest);
    }
  }

  /** One more element of a prefix. */
  lemma PrefixStep<T>(s: seq<T>, i: nat)
    requires i < |s|
    ensures s[..i + 1] == s[..i] + [s[i]]
  {
  }

  /** A history extended by the prefixes of `s`, one element at a time. */
  lemma ExtendStep<T>(h: seq<T>, s: seq<T>, i: nat)
    requires i < |s|
    ensures (h + s[..i]) + [s[i]] == h + s[..i + 1]
  {
    PrefixStep(s, i);
  }

  lemma MulSucc(i: int, score: int)
    ensures (i + 1) * score == i * score + score
  {
  }

  /** `r` orders, each scoring between 1 and 100 points, score between `r` and `100 * r`. */
  lemma ScoresAdd(r: int, score: int)
    requires r >= 0 && 1 <= score <= 100
    ensures r <= r * score <= 100 * r
  {
    assert r * score - r == r * (score - 1) >= 0;
    assert 100 * r - r * score == r * (100 - score) >= 0;
  }

  /** Scores stay within 1 to 100 points per order removed: `score1`, earned
      over `removed0` orders, grows by `removed1` orders at `points` each. */
  lemma ScoreBounds(score0: int, removed0: int, score1: int, removed1: int, points: int, score2: int)
    requires score0 + removed0 <= score1 <= score0 + 100 * removed0
    requires removed1 >= 0 && 1 <= points <= 100 && score2 == score1 + removed1 * points
    ensures score0 + (removed0 + removed1) <= score2 <= score0 + 100 * (removed0 + removed1)
  {
    ScoresAdd(removed1, points);
  }

  /** The commands of a list of batches, batch after batch. */
  function Concat(batches: seq<seq<Command>>): (r: seq<Command>)
  {
    if batches == [] then [] else Concat(batches[..|batches| - 1]) + batches[|batches| - 1]
  }

  /** A history extended by Concat of one more batch. */
  lemma ConcatSnoc(history: seq<Command>, batches: seq<seq<Command>>, added: seq<Command>)
    ensures history + Concat(batches + [added]) == history + Concat(batches) + added
  {
    assert (batches + [added])[..|batches|] == batches;
  }

  /** The pending list becomes `rest`, distinct orders of the model; the
      model stays valid. */
  method SetPending(m: Model, rest: seq<Store>)
    requires m.Valid()
    requires forall k :: 0 <= k < |rest| ==> rest[k] in m.allOrders
    requires forall a, b :: 0 <= a < b < |rest| ==> rest[a] != rest[b]
    modifies m
    ensures m.Valid() && m.orders == rest
  {
    m.orders := rest;
  }

  /** orderCompleted for the `i`-th of the completed orders `done`, taken
      from the pending list `orders0` at the start of the settling: the order
      leaves the pending list, and `score` points join the running total. */
  method OrderCompleted(m: Model, ghost orders0: seq<Store>, done: seq<Store>, i: nat, total: int, score: int)
    returns (total': int)
    requires m.Valid() && i < |done| && multiset(done) <= multiset(orders0)
    requires forall a, b :: 0 <= a < b < |orders0| ==> orders0[a] != orders0[b]
    requires forall k :: 0 <= k < |orders0| ==> orders0[k] in m.allOrders
    requires multiset(m.orders) == multiset(orders0) - multiset(done[..i])
    modifies m
    ensures m.Valid()
    ensures multiset(m.orders) == multiset(orders0) - multiset(done[..i + 1])
    ensures |m.orders| == |old(m.orders)| - 1
    ensures m.orders == RemoveFirst(old(m.orders), done[i])
    ensures total' == total + score
  {
    StillPending(orders0, done, m.orders, i);
    RemoveFirstMultiset(m.orders, done[i]);
    var rest := RemoveFirst(m.orders, done[i]);
    PrefixStep(done, i);
    DistinctWithin(rest, orders0);
    SetPending(m, rest);
    total' := total + score;
  }

  /** model.orders.filter { isCompleted }.forEach { orderCompleted } on the
      model and the running score: every pending order completed by now
      leaves the pending list, which then holds no completed order, and each
      scores the same points for this tick. */
  method Settle(m: Model, totalScore: int, time: int) returns (total: int)
    requires m.Valid() && 0 <= time < m.deadline
    modifies m
    ensures m.Valid()
    ensures multiset(m.orders) == multiset(old(m.orders)) - multiset(old(Completed(m.orders)))
    ensures |m.orders| == |old(m.orders)| - |old(Completed(m.orders))|
    ensures forall k :: 0 <= k < |m.orders| ==> !IsCompleted(m.orders[k].items)
    ensures forall x :: x in old(m.orders) && x !in m.orders ==> IsCompleted(x.items)
    ensures m.orders == old(Unfinished(m.orders))
    ensures total == totalScore + |old(Completed(m.orders))| * Score(m.deadline, time)
  {
    ghost var orders0 := m.orders;
    var done := Completed(m.orders);
    CompletedWithin(orders0);
    InOrder(orders0, done);
    total := CompleteAll(m, done, totalScore, Score(m.deadline, time));
    NoneCompletedLeft(orders0, done, m.orders);
    LeftAreDone(orders0, m.orders, done);
  }

  /** Removing the completed orders of a list of distinct orders one by one
      leaves its unfinished orders, in list order. */
  lemma InOrder(orders: seq<Store>, done: seq<Store>)
    requires forall a, b :: 0 <= a < b < |orders| ==> orders[a] != orders[b]
    requires done == Completed(orders)
    ensures RemoveAll(orders, done) == Unfinished(orders)
  {
    CompletedWithin(orders);
    DistinctWithin(done, orders);
    RemoveAllExcept(orders, done);
    var d := set x | x in done;
    forall x | x in orders
      ensures x in d <==> IsCompleted(x.items)
    {
      CompletedCount(orders, x);
      if IsCompleted(x.items) {
        assert x in multiset(done);
      }
    }
    ExceptCompleted(orders, d);
  }

  /** orderCompleted for each of `done`, orders on the pending list, in turn. */
  method CompleteAll(m: Model, done: seq<Store>, totalScore: int, score: int) returns (total: int)
    requires m.Valid() && multiset(done) <= multiset(m.orders)
    modifies m
    ensures m.Valid()
    ensures multiset(m.orders) == multiset(old(m.orders)) - multiset(done)
    ensures |m.orders| == |old(m.orders)| - |done|
    ensures m.orders == RemoveAll(old(m.orders), done)
    ensures total == totalScore + |done| * score
  {
    ghost var orders0 := m.orders;
    total := totalScore;
    var i := 0;
    while i < |done|
      invariant 0 <= i <= |done|
      invariant m.Valid()
      invariant forall k :: 0 <= k < |orders0| ==> orders0[k] in m.allOrders
      invariant multiset(m.orders) == multiset(orders0) - multiset(done[..i])
      invariant |m.orders| == |orders0| - i
      invariant m.orders == RemoveAll(orders0, done[..i])
      invariant total == totalScore + i * score
    {
      assert done[..i + 1][..i] == done[..i];
      total := OrderCompleted(m, orders0, done, i, total, score);
      MulSucc(i, score);
      i := i + 1;
    }
    assert done[..i] == done;
  }

  // ---------------------------------------------------------------------------
  // The simulation

  /** No order of the list has every entry delivered. */
  ghost predicate NoneCompleted(orders: seq<Store>)
    reads set o | o in orders
  {
    forall k :: 0 <= k < |orders| ==> !IsCompleted(orders[k].items)
  }

  /** Every command of a batch is for drone `id`. */
  predicate IssuedTo(commands: seq<Command>, id: int)
  {
    forall k :: 0 <= k < |commands| ==> commands[k].drone == id
  }

  /** Simulation: the clock, the policy's commands handed to idle drones, and
      the scoring of completed orders. */
  class Simulation {
    const model: Model
    const policy: Policy
    var totalScore: int
    var time: int
    var commandHistory: seq<Command>
    /** What each drone had accepted before the simulation began. */
    ghost const base: seq<seq<Command>>

    /** The model is well formed, the policy serves it, and each drone has
        accepted, since the start, exactly the history's commands for it. */
    ghost predicate Valid()
      reads this, model, model.drones, model.warehouses, model.allOrders, model.distanceMap,
            model.distanceMap.cells, PolicyState(policy)
    {
      && model.Valid() && Serves(policy, model)
      && 0 <= time
      && Accounts()
    }

    constructor (model: Model, policy: Policy)
      requires model.Valid() && Serves(policy, model)
      ensures Valid()
      ensures this.model == model && this.policy == policy
      ensures totalScore == 0 && time == 0 && commandHistory == []
    {
      this.model := model;
      this.policy := policy;
      totalScore := 0;
      time := 0;
      commandHistory := [];
      base := AcceptedBy(model.drones);
    }

    /** Each drone has accepted, on top of what it had at the start, exactly
        the history's commands for it. */
    ghost predicate Accounts()
      reads this, model, model.drones
    {
      && |base| == |model.drones|
      && forall i :: 0 <= i < |model.drones| ==> model.drones[i].enqueued == base[i] + ForDrone(commandHistory, i)
    }

    /** drone.enqueueCommand(it) and commandHistory.add(it) for one command. */
    method Record(drone: Drone, c: Command)
      requires model.Valid() && Accounts() && drone in model.drones
      requires Issued(c, drone.id, model.products) && InRange(c, |model.warehouses|, |model.allOrders|)
      modifies this, drone
      ensures model.Valid() && Accounts()
      ensures commandHistory == old(commandHistory) + [c]
      ensures drone.commandQueue == old(drone.commandQueue) + [c]
      ensures Position(drone) == old(Position(drone)).(queue := drone.commandQueue)
      ensures time == old(time) && totalScore == old(totalScore)
    {
      ghost var j :| 0 <= j < |model.drones| && model.drones[j] == drone;
      assert drone.id == j;
      ghost var history0 := commandHistory;
      commandHistory := commandHistory + [c];
      Enqueue(model, drone, c);
      forall i | 0 <= i < |model.drones|
        ensures model.drones[i].enqueued == base[i] + ForDrone(commandHistory, i)
      {
        if i != j {
          assert model.drones[i] != drone;
        }
        AccountStep(old(model.drones[i].enqueued), model.drones[i].enqueued, base[i], history0, c, i);
      }
    }

    /** Every command in turn joins the drone's queue and the history. */
    method Dispatch(drone: Drone, commands: seq<Command>)
      requires model.Valid() && Accounts() && drone in model.drones
      requires forall k :: 0 <= k < |commands| ==>
        Issued(commands[k], drone.id, model.products) && InRange(commands[k], |model.warehouses|, |model.allOrders|)
      modifies this, drone
      ensures model.Valid() && Accounts()
      ensures commandHistory == old(commandHistory) + commands
      ensures drone.commandQueue == old(drone.commandQueue) + commands
      ensures drone.location == old(drone.location)
      ensures drone.timeToCompleteActiveCommand == old(drone.timeToCompleteActiveCommand)
      ensures time == old(time) && totalScore == old(totalScore)
    {
      var i := 0;
      while i < |commands|
        invariant 0 <= i <= |commands|
        invariant model.Valid() && Accounts()
        invariant commandHistory == old(commandHistory) + commands[..i]
        invariant drone.commandQueue == old(drone.commandQueue) + commands[..i]
        invariant drone.location == old(drone.location)
        invariant drone.timeToCompleteActiveCommand == old(drone.timeToCompleteActiveCommand)
        invariant time == old(time) && totalScore == old(totalScore)
      {
        Record(drone, commands[i]);
        ExtendStep(old(commandHistory), commands, i);
        ExtendStep(old(drone.commandQueue), commands, i);
        i := i + 1;
      }
      assert commands[..i] == commands;
    }

    /** drone.advanceTime() within the simulation: the drone and the stores
        change as Advanced says, and the simulation stays valid unless it
        throws. */
    method AdvanceDrone(drone: Drone) returns (o: Outcome)
      requires Valid() && drone in model.drones
      modifies drone, model.distanceMap.cells, model.warehouses, model.allOrders
      ensures Advanced(drone, model.warehouses, model.allOrders, o)
      ensures forall b :: 0 <= b < |model.drones| && model.drones[b] != drone ==> Position(model.drones[b]) == old(Position(model.drones[b]))
      ensures o.Pass? ==> Valid()
      ensures forall x :: x in model.allOrders && old(IsCompleted(x.items)) ==> x.items == old(x.items)
    {
      o := Advance(model, drone);
      forall i | 0 <= i < |model.drones|
        ensures model.drones[i].enqueued == old(model.drones[i].enqueued)
      {
      }
    }

    /** algorithm.getCommandsFor(drone), each command then recorded: the
        outcome and the commands are the policy's answer; the drone stays
        where it is. */
    method ServeDrone(drone: Drone) returns (o: Outcome, commands: seq<Command>)
      requires Valid() && drone in model.drones
      modifies this, drone, model.warehouses, model.allOrders, PolicyState(policy)
      ensures (o, commands) == old(Answer(policy, model, drone))
      ensures forall b :: 0 <= b < |model.drones| && model.drones[b] != drone ==> Position(model.drones[b]) == old(Position(model.drones[b]))
      ensures drone.location == old(drone.location)
      ensures drone.timeToCompleteActiveCommand == old(drone.timeToCompleteActiveCommand)
      ensures time == old(time) && totalScore == old(totalScore) && old(commandHistory) <= commandHistory
      ensures o.Pass? ==> Valid() && commandHistory == old(commandHistory) + commands && IssuedTo(commands, drone.id)
      ensures o.Pass? ==> drone.commandQueue == old(drone.commandQueue) + commands
      ensures forall x :: x in model.allOrders && old(IsCompleted(x.items)) ==> x.items == old(x.items)
    {
      o, commands := CommandsFor(model, policy, drone);
      if o.Fail? {
        return;
      }
      forall i | 0 <= i < |model.drones|
        ensures model.drones[i].enqueued == old(model.drones[i].enqueued)
      {
      }
      assert Accounts();
      Dispatch(drone, commands);
      assert IssuedTo(commands, drone.id);
    }

    /** The second half of a drone's turn: an idle drone (empty queue) is
        handed the policy's answer at the current state; a busy one is handed
        nothing and nothing changes. */
    method ServeIfIdle(drone: Drone) returns (o: Outcome, idle: bool, added: seq<Command>)
      requires Valid() && drone in model.drones
      modifies this, drone, model.warehouses, model.allOrders, PolicyState(policy)
      ensures idle == (old(drone.commandQueue) == [])
      ensures idle ==> (o, added) == old(Answer(policy, model, drone))
      ensures !idle ==> o == Pass && added == []
      ensures forall b :: 0 <= b < |model.drones| && model.drones[b] != drone ==> Position(model.drones[b]) == old(Position(model.drones[b]))
      ensures drone.location == old(drone.location)
      ensures drone.timeToCompleteActiveCommand == old(drone.timeToCompleteActiveCommand)
      ensures time == old(time) && totalScore == old(totalScore) && old(commandHistory) <= commandHistory
      ensures o.Pass? ==> Valid() && commandHistory == old(commandHistory) + added && IssuedTo(added, drone.id)
      ensures o.Pass? ==> drone.commandQueue == old(drone.commandQueue) + added
      ensures forall x :: x in model.allOrders && old(IsCompleted(x.items)) ==> x.items == old(x.items)
    {
      o, added := Pass, [];
      idle := drone.IsIdle();
      if idle {
        o, added := ServeDrone(drone);
      }
    }

    /** One drone's turn in a tick: its clock advances (it travels as Travel
        says) and, when that leaves it idle (`idle`: its queue was empty, or
        held one command that now completes), it is handed the policy's next
        commands, which join its queue and the history; a drone still busy is
        handed nothing. A throw of advanceTime or of the policy ends the turn
        with the failure. The ledger of a completed order is never touched. */
    method Tick(drone: Drone) returns (o: Outcome, ghost idle: bool, ghost added: seq<Command>)
      requires Valid() && drone in model.drones
      modifies this, drone, model.distanceMap.cells, model.warehouses, model.allOrders, PolicyState(policy)
      ensures o.Pass? ==>
        var next := old(Travel(drone.commandQueue, drone.timeToCompleteActiveCommand, drone.location,
                               model.warehouses, model.allOrders));
        && (idle <==> next.queue == [])
        && drone.commandQueue == next.queue + added
        && drone.location == next.location && drone.timeToCompleteActiveCommand == next.timer
      ensures forall b :: 0 <= b < |model.drones| && model.drones[b] != drone ==> Position(model.drones[b]) == old(Position(model.drones[b]))
      ensures time == old(time) && totalScore == old(totalScore) && old(commandHistory) <= commandHistory
      ensures o.Pass? ==> Valid() && commandHistory == old(commandHistory) + added && IssuedTo(added, drone.id)
      ensures o.Pass? && !idle ==> added == []
      ensures o.Pass? && idle ==> drone.commandQueue == added
      ensures forall x :: x in model.allOrders && old(IsCompleted(x.items)) ==> x.items == old(x.items)
    {
      idle, added := false, [];
      o := AdvanceDrone(drone);
      if o.Fail? {
        return;
      }
      o, idle, added := ServeIfIdle(drone);
    }

    /** Every drone of the model took its turn, drone `j` handed `batches[j]`,
        as TookTurn says, from where it stood in the old state. */
    twostate predicate Served(batches: seq<seq<Command>>)
      reads model, model.drones
    {
      && |batches| == |model.drones|
      && forall j :: 0 <= j < |model.drones| ==>
           TookTurn(old(Position(model.drones[j])), Position(model.drones[j]), batches[j], model.warehouses, model.allOrders)
    }

    /** The first `j` drones of the model took their turns in this tick, as
        TurnsTaken says. */
    ghost predicate Progressed(start: seq<Motion>, j: nat, batches: seq<seq<Command>>)
      reads model, model.drones
    {
      TurnsTaken(start, Positions(model.drones), j, batches, model.warehouses, model.allOrders)
    }

    /** Drone `j`'s turn within model.drones.forEach: Progressed moves on from
        `j` to `j + 1` drones, and the history grows by the drone's batch. */
    method TakeTurn(ghost start: seq<Motion>, j: nat, ghost batches: seq<seq<Command>>, ghost history0: seq<Command>)
      returns (o: Outcome, ghost batches': seq<seq<Command>>)
      requires Valid() && j < |model.drones| && Progressed(start, j, batches)
      requires commandHistory == history0 + Concat(batches)
      modifies this, model.drones, model.distanceMap.cells, model.warehouses, model.allOrders, PolicyState(policy)
      ensures time == old(time) && totalScore == old(totalScore) && old(commandHistory) <= commandHistory
      ensures o.Pass? ==> Valid() && Progressed(start, j + 1, batches') && commandHistory == history0 + Concat(batches')
      ensures forall x :: x in model.allOrders && old(IsCompleted(x.items)) ==> x.items == old(x.items)
    {
      var d := model.drones[j];
      ghost var before := Positions(model.drones);
      assert d.id == j && before[j] == start[j];
      ghost var idle, added;
      o, idle, added := Tick(d);
      ConcatSnoc(history0, batches, added);
      batches' := batches + [added];
      if o.Pass? {
        ghost var after := Positions(model.drones);
        TurnsTakenStep(start, before, after, j, batches, added, model.warehouses, model.allOrders);
      }
    }

    /** model.drones.forEach: every drone in list order takes its turn; the
        history grows by drone 0's new commands, then drone 1's, and so on.
        Each drone travels as Travel says, and only a drone whose queue
        empties out is handed commands, which make up its new queue (Served). */
    method ServeDrones() returns (o: Outcome, ghost batches: seq<seq<Command>>)
      requires Valid()
      modifies this, model.drones, model.distanceMap.cells, model.warehouses, model.allOrders, PolicyState(policy)
      ensures time == old(time) && totalScore == old(totalScore) && old(commandHistory) <= commandHistory
      ensures o.Pass? ==> Valid() && commandHistory == old(commandHistory) + Concat(batches)
      ensures o.Pass? ==> |batches| == |model.drones| && forall j :: 0 <= j < |batches| ==> IssuedTo(batches[j], j)
      ensures o.Pass? ==> Served(batches)
      ensures forall x :: x in model.allOrders && old(IsCompleted(x.items)) ==> x.items == old(x.items)
    {
      ghost var start := Positions(model.drones);
      o := Pass;
      batches := [];
      var j := 0;
      while j < |model.drones| && o == Pass
        invariant 0 <= j <= |model.drones|
        invariant time == old(time) && totalScore == old(totalScore) && old(commandHistory) <= commandHistory
        invariant o.Pass? ==> Valid() && Progressed(start, j, batches)
        invariant o.Pass? ==> commandHistory == old(commandHistory) + Concat(batches)
        invariant forall x :: x in model.allOrders && old(IsCompleted(x.items)) ==> x.items == old(x.items)
      {
        o, batches := TakeTurn(start, j, batches, old(commandHistory));
        j := j + 1;
      }
      if o.Pass? {
        forall b | 0 <= b < |model.drones|
          ensures TookTurn(old(Position(model.drones[b])), Position(model.drones[b]), batches[b], model.warehouses, model.allOrders)
        {
          assert old(Position(model.drones[b])) == start[b];
        }
      }
    }

    /** model.orders.filter { isCompleted }.forEach { orderCompleted }, then
        time++: every pending order completed by now leaves the list, which
        then holds no completed order, each scores the same points for the
        tick that ends, and the clock moves on by one. */
    method SettleOrders() returns (ghost removed: nat)
      requires Valid() && time < model.deadline
      modifies this, model
      ensures Valid() && time == old(time) + 1 && commandHistory == old(commandHistory)
      ensures multiset(model.orders) == multiset(old(model.orders)) - multiset(old(Completed(model.orders)))
      ensures removed == |old(Completed(model.orders))| && |model.orders| == |old(model.orders)| - removed
      ensures NoneCompleted(model.orders)
      ensures forall x :: x in old(model.orders) && x !in model.orders ==> IsCompleted(x.items)
      ensures forall x :: x in model.allOrders ==> x.items == old(x.items)
      ensures model.orders == old(Unfinished(model.orders))
      ensures totalScore == old(totalScore) + (|old(model.orders)| - |model.orders|) * Score(model.deadline, old(time))
    {
      assert model !in PolicyState(policy) && this !in PolicyState(policy);
      removed := |Completed(model.orders)|;
      var total := Settle(model, totalScore, time);
      Tock(total);
    }

    /** time++ once the tick's score `total` is in. */
    method Tock(total: int)
      requires model.Valid() && Serves(policy, model) && 0 <= time && Accounts()
      requires model !in PolicyState(policy) && this !in PolicyState(policy)
      modifies this
      ensures Valid() && time == old(time) + 1 && totalScore == total
      ensures commandHistory == old(commandHistory)
    {
      totalScore, time := total, time + 1;
    }

    /** One pass of run's loop body at `time`: the drones take their turns,
        the completed orders are settled, and the clock moves on. The history
        only grows, by one batch per drone, batch `j` for drone `j`; an order
        leaves the pending list only when completed, and a completed order's
        ledger is never touched again. A throw leaves the clock where it was. */
    method Step() returns (o: Outcome, ghost batches: seq<seq<Command>>)
      requires Valid() && time < model.deadline
      modifies this, model, model.drones, model.distanceMap.cells, model.warehouses, model.allOrders,
               PolicyState(policy)
      ensures old(commandHistory) <= commandHistory
      ensures o.Pass? ==> commandHistory == old(commandHistory) + Concat(batches)
      ensures o.Pass? ==> |batches| == |model.drones| && forall j :: 0 <= j < |batches| ==> IssuedTo(batches[j], j)
      ensures forall x :: x in old(model.orders) && x !in model.orders ==> IsCompleted(x.items)
      ensures forall x :: x in model.allOrders && old(IsCompleted(x.items)) ==> x.items == old(x.items)
      ensures o.Fail? ==> time == old(time) && model.orders == old(model.orders)
      ensures o.Pass? ==> Valid() && time == old(time) + 1
      ensures o.Pass? ==> |model.orders| <= |old(model.orders)| && multiset(model.orders) <= multiset(old(model.orders))
      ensures o.Pass? ==> NoneCompleted(model.orders)
      ensures o.Pass? ==>
        totalScore == old(totalScore) + (|old(model.orders)| - |model.orders|) * Score(model.deadline, old(time))
    {
      ghost var orders0, score0, time0 := model.orders, totalScore, time;
      o, batches := ServeDrones();
      if o.Fail? {
        return;
      }
      assert model.orders == orders0;
      assert totalScore == score0;
      assert time == time0;
      assert model !in PolicyState(policy) && this !in PolicyState(policy);
      ghost var removed := SettleOrders();
      assert totalScore == score0 + (|orders0| - |model.orders|) * Score(model.deadline, time0);
      assert score0 == old(totalScore) && |orders0| == |old(model.orders)| && time0 == old(time);
    }

    /** What run promises about the state, measured from a start at clock
        `time0` with pending list `orders0`, score `score0` and history
        `history0`: the clock has not gone back and has not passed the
        deadline (unless it started past it), orders only left and only
        completed ones, the history only grew, and, when no throw occurred,
        each order that left added between 1 and 100 points. */
    ghost predicate Since(time0: int, orders0: seq<Store>, score0: int, history0: seq<Command>, pass: bool)
      reads this, model, model.allOrders
    {
      && time0 <= time
      && (time <= if time0 < model.deadline then model.deadline else time0)
      && |model.orders| <= |orders0| && multiset(model.orders) <= multiset(orders0)
      && history0 <= commandHistory
      && (forall x :: x in orders0 ==> x in model.allOrders && (x !in model.orders ==> IsCompleted(x.items)))
      && (pass ==>
            var removed := |orders0| - |model.orders|;
            score0 + removed <= totalScore <= score0 + 100 * removed)
    }

    /** One pass of run's loop: Step, after which Since still holds from the
        same start. */
    method Turn(ghost time0: int, ghost orders0: seq<Store>, ghost score0: int, ghost history0: seq<Command>)
      returns (o: Outcome)
      requires Valid() && time < model.deadline && Since(time0, orders0, score0, history0, true)
      modifies this, model, model.drones, model.distanceMap.cells, model.warehouses, model.allOrders,
               PolicyState(policy)
      ensures Since(time0, orders0, score0, history0, o.Pass?)
      ensures o.Pass? ==> Valid() && time == old(time) + 1
      ensures o.Fail? ==> time == old(time)
    {
      ghost var before, t0 := model.orders, time;
      ghost var batches;
      label pre:
      o, batches := Step();
      forall x | x in orders0
        ensures x !in model.orders ==> IsCompleted(x.items)
      {
        if x !in before && x !in model.orders {
          assert old@pre(IsCompleted(x.items)) && x in model.allOrders;
        }
      }
      assert history0 <= old(commandHistory) <= commandHistory;
      assert multiset(model.orders) <= multiset(before) <= multiset(orders0);
      if o.Pass? {
        ScoreRange(model.deadline, t0);
        ScoreBounds(score0, |orders0| - |before|, old(totalScore), |before| - |model.orders|,
              Score(model.deadline, t0), totalScore);
      }
    }

    /** Simulation.run: while the deadline is ahead and orders are pending,
        tick. The clock ends at the deadline, or earlier once no order is
        pending; orders only leave the pending list, and only completed ones;
        each order that leaves scores between 1 and 100 points. The history
        only grows. A throw ends the run with the failure. */
    method Run() returns (o: Outcome)
      requires Valid()
      modifies this, model, model.drones, model.distanceMap.cells, model.warehouses, model.allOrders,
               PolicyState(policy)
      ensures old(time) <= time
      ensures time <= if old(time) < model.deadline then model.deadline else old(time)
      ensures o.Pass? ==> Valid() && (time >= model.deadline || model.orders == [])
      ensures |model.orders| <= |old(model.orders)| && multiset(model.orders) <= multiset(old(model.orders))
      ensures o.Pass? ==>
        var removed := |old(model.orders)| - |model.orders|;
        old(totalScore) + removed <= totalScore <= old(totalScore) + 100 * removed
      ensures old(commandHistory) <= commandHistory
      ensures forall x :: x in old(model.orders) && x !in model.orders ==> IsCompleted(x.items)
    {
      o := Pass;
      assert Since(time, model.orders, totalScore, commandHistory, true);
      while time < model.deadline && model.orders != [] && o == Pass
        invariant o.Pass? ==> Valid()
        invariant Since(old(time), old(model.orders), old(totalScore), old(commandHistory), o.Pass?)
        decreases model.deadline - time, if o.Pass? then 1 else 0
      {
        o := Turn(old(time), old(model.orders), old(totalScore), old(commandHistory));
      }
    }

    /** toSolutionString: the number of commands issued, then each command's
        wire form on a line of its own. */
    method ToSolutionString() returns (text: string)
      ensures text == SolutionText(commandHistory)
    {
      var history := commandHistory;
      var head := IntToString(|history|) + "\n";
      text := head;
      var i := 0;
      while i < |history|
        invariant 0 <= i <= |history|
        invariant text == head + Rendered(history[..i])
      {
        RenderedSnoc(history[..i], history[i]);
        PrefixStep(history, i);
        JoinAfter(head, Rendered(history[..i]), Line(history[i]));
        text := text + Line(history[i]);
        i := i + 1;
      }
      assert history[..i] == history;
    }
  }
}
