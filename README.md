# Drone delivery simulation (Hash Code 2016 qualification), modelled in Dafny

This project models the core of a Kotlin simulator for the Hash Code 2016
qualification problem. Drones carry weighted products from warehouses to
customer orders on a grid, and they must finish before a deadline.

The model covers these parts:

- **The reservation ledger** (`ledger.dfy`, `products.dfy`, `orders.dfy`).
  Warehouses, orders and drones all use the same kind of ledger. Each entry
  keeps an `available` count and a `reserved` count for one product.
  `Store.reserve` moves units from available to reserved.
  `Store.checkoutReservation` retires reserved units.
  An order also answers three questions: its outstanding items, its reserved
  items, and whether it is completed.
- **The distance cache** (`geometry.dfy`). `Map.distance` is the rounded-up
  Euclidean distance. The cache is a `size x size` matrix, filled lazily and
  indexed by location ids.
- **The drone state machine** (`drone.dfy`). The drone keeps a FIFO command
  queue and a payload ledger with its total weight.
  - `advanceTime` counts down `1 + distance` ticks.
  - When the countdown reaches zero, the head command completes. A Load checks
    out at the warehouse and loads. A Deliver checks out at the order and
    unloads.
  - `reserve` refuses a reservation that would exceed the drone's capacity.
- **Commands and their wire format** (`commands.dfy`, `text.dfy`).
- **The world** (`world.dfy`). `Model.init` builds the world from tokenised
  input lines: products, warehouses with their stock, orders collapsed to
  per-product counts, the distance cache, and the drones.
- **The first-fit policy** (`chopchop.dfy`, ChopChopDumbAlgorithm).
  - It takes the first order that has an outstanding entry, and that order's
    first outstanding entry.
  - It loads the product from the warehouses in list order, taking
    `min(need, stock, free capacity)` at each one.
  - It ends with one Deliver of the total.
- **The heavy-lifting policy** (`heavylifting.dfy`, GreedyHeavyLiftingAlgorithm).
  - `init` sorts the pending orders stably by their number of outstanding
    entries.
  - For each order it books every outstanding unit into payloads no heavier
    than `maxDroneLoad`. Each unit comes from the warehouse with the least
    detour.
  - `getCommandsFor` hands out the payloads first in, first out: every Load
    of a payload, then every Deliver.
- **The simulation** (`simulation.dfy`). The tick loop advances every drone in
  list order. An idle drone is given the policy's commands, which are queued
  and added to the command history. Completed orders are removed and scored
  `ceil(100 * (deadline - time) / deadline)`. At the end, the history is
  written out as the solution text.

Points to note about the code:

- The heavy-lifting ranking adds the constant term `distance(location, order)`
  (GreedyHeavyLiftingAlgorithm.kt:70). The model keeps that term. It does not
  change which warehouse is chosen.
- The self-check after planning only logs residue (GreedyHeavyLiftingAlgorithm.kt:97-101).
  The model proves that, when planning does not fail, no residue is left.
- The planner fails exactly when, for some product, the warehouses hold
  fewer units than the pending orders lack. Each booking lowers a product's
  supply and its demand by the same amount, so supply minus demand never
  changes during planning.
- A drone with zero capacity and a deadline of zero or less are not refused
  at construction.
- `getProduct` throws on an unknown product (Map.kt:18-19). The model returns
  `ProductNotFound`.

The modules are `Results` (results and outcomes), `Products`, `Ledger`,
`Orders`, `Seqs`, `Text`, `Commands`, `Geometry`, `Drones`, `World`,
`ChopChop`, `HeavyLifting` and `Simulations`.

## Model

All source paths below are relative to `src/main/kotlin/com/msagi/hashcode/delivery/`
and are written out in full in the table.

| member | source | states |
|---|---|---|
| Products.ProductStringRoundTrip | src/main/kotlin/com/msagi/hashcode/delivery/model/Product.kt:3-7 | Reading back `Product#<id>[weight:<w>]` gives the product: the rendering determines the product |
| Ledger.FindProduct | src/main/kotlin/com/msagi/hashcode/delivery/model/Map.kt:18-19 | `getProduct`'s `firstOrNull`: the first index whose entry has the id; None exactly when no entry has it |
| Ledger.LedgerReserve | src/main/kotlin/com/msagi/hashcode/delivery/model/Map.kt:21-29 | Ok exactly when the product is found with at least `q` available. Then that entry moves `q` from available to reserved and every other entry is unchanged. Otherwise the error is ProductNotFound or InsufficientAvailable |
| Ledger.LedgerCheckout | src/main/kotlin/com/msagi/hashcode/delivery/model/Map.kt:31-38 | Ok exactly when the product is found with at least `q` reserved. Then that entry's reserved count falls by `q`, available is untouched, and the rest is unchanged. Otherwise the error is ProductNotFound or InsufficientReserved |
| Ledger.ReserveConserves | src/main/kotlin/com/msagi/hashcode/delivery/model/Map.kt:21-29 | A reservation never changes available + reserved of any product |
| Ledger.CheckoutRemoves | src/main/kotlin/com/msagi/hashcode/delivery/model/Map.kt:31-38 | A checkout lowers the units held of the product by exactly `q`, and of no other product |
| Ledger.ReserveThenCheckout | src/main/kotlin/com/msagi/hashcode/delivery/model/Map.kt:21-38 | Reserve then checkout of the same `q`: the checkout succeeds, and the entry ends with available lowered by `q` and reserved as before |
| Ledger.ReserveKeepsShape | src/main/kotlin/com/msagi/hashcode/delivery/model/Map.kt:21-29 | A reservation keeps the products entry by entry |
| Ledger.CheckoutKeepsShape | src/main/kotlin/com/msagi/hashcode/delivery/model/Map.kt:31-38 | A checkout keeps the products entry by entry |
| Ledger.FindDistinct | src/main/kotlin/com/msagi/hashcode/delivery/model/Map.kt:18-19 | In a ledger with distinct ids, the entry with a given id is the one the search finds |
| Ledger.Store.constructor | src/main/kotlin/com/msagi/hashcode/delivery/model/Map.kt:16 | A store keeps its id, location and ledger |
| Ledger.Store.Reserve | src/main/kotlin/com/msagi/hashcode/delivery/model/Map.kt:21-29 | In place: on Pass the ledger becomes LedgerReserve's result. On Fail, with that error, the ledger is unchanged |
| Ledger.Store.CheckoutReservation | src/main/kotlin/com/msagi/hashcode/delivery/model/Map.kt:31-38 | In place: on Pass the ledger becomes LedgerCheckout's result. On Fail, with that error, the ledger is unchanged |
| Orders.Indices | src/main/kotlin/com/msagi/hashcode/delivery/model/Order.kt:7-9 | The positions the filter keeps: every one meets the criterion, they strictly increase, and none meeting it is missed |
| Orders.IndicesExactly | src/main/kotlin/com/msagi/hashcode/delivery/model/Order.kt:7-9 | The filter lists a position exactly when its entry meets the criterion (available > 0, or reserved > 0) |
| Orders.OutstandingMembers | src/main/kotlin/com/msagi/hashcode/delivery/model/Order.kt:7 | An entry is outstanding exactly when it is in the ledger with available > 0 |
| Orders.CompletedIffNothingLeft | src/main/kotlin/com/msagi/hashcode/delivery/model/Order.kt:7-11 | `isCompleted` holds exactly when both `getOutstandingItems` and `getReservedItems` are empty |
| Orders.CompletedMeansZero | src/main/kotlin/com/msagi/hashcode/delivery/model/Order.kt:11 | With non-negative counts, completed means every count is zero |
| Orders.CompletedStaysCompleted | src/main/kotlin/com/msagi/hashcode/delivery/model/Order.kt:11 | A completed order stays completed: reserving or checking out a positive quantity fails, and zero changes nothing |
| Orders.FirstOutstanding | src/main/kotlin/com/msagi/hashcode/delivery/model/Order.kt:7 | The first index with available > 0, or None exactly when there is none |
| Orders.FirstOutstandingIsHead | src/main/kotlin/com/msagi/hashcode/delivery/model/Order.kt:7 | `getOutstandingItems().firstOrNull()` is the entry at FirstOutstanding; the list is empty exactly when that is None |
| Seqs.RemoveFirst | src/main/kotlin/com/msagi/hashcode/delivery/model/Drone.kt:100 | `MutableList.remove`: one element fewer when the element is present, the list unchanged when it is not |
| Seqs.RemoveFirstAt | src/main/kotlin/com/msagi/hashcode/delivery/model/Drone.kt:100 | `MutableList.remove`: when the element first occurs at `k`, exactly position `k` goes |
| Seqs.RemoveFirstMultiset | src/main/kotlin/com/msagi/hashcode/delivery/Simulation.kt:58 | `remove` takes exactly one copy of the element out of the multiset of elements |
| Seqs.RemoveFirstExcept | src/main/kotlin/com/msagi/hashcode/delivery/Simulation.kt:58 | In a list of distinct elements, removing one present element that was not yet dropped is the same as dropping it with a filter; list order is kept |
| Seqs.RemoveAllExcept | src/main/kotlin/com/msagi/hashcode/delivery/Simulation.kt:36-38 | Removing distinct elements of a distinct list one by one, with `remove`, leaves the list filtered by "not removed", in its original order |
| Text.NatRoundTrip | src/main/kotlin/com/msagi/hashcode/delivery/model/DroneCommand.kt:15 | The decimal digits of a natural number read back as that number |
| Text.IntRoundTrip | src/main/kotlin/com/msagi/hashcode/delivery/model/DroneCommand.kt:15 | Rendering an integer in decimal and parsing it back gives the integer |
| Text.SplitJoin | src/main/kotlin/com/msagi/hashcode/delivery/Model.kt:21 | `split(' ')` of pieces joined by the separator gives back the pieces, when no piece holds the separator |
| Commands.Tag | src/main/kotlin/com/msagi/hashcode/delivery/model/DroneCommand.kt:3-6 | The tag is `L` exactly for a Load and `D` exactly for a Deliver, one character, no space |
| Commands.CommandStringRoundTrip | src/main/kotlin/com/msagi/hashcode/delivery/model/DroneCommand.kt:14-16 | Splitting `toCommandString` on spaces gives back the drone id, tag, site id, product id and quantity |
| Geometry.NewLocation | src/main/kotlin/com/msagi/hashcode/delivery/model/Map.kt:7-15 | A new location keeps its row and column and gets an id not below the counter; the counter moves past that id |
| Geometry.NewLocations | src/main/kotlin/com/msagi/hashcode/delivery/model/Map.kt:7-15 | Locations built one after another keep their coordinates, and every id they get lies between the starting counter and the counter left at the end |
| Geometry.NewLocationsDistinct | src/main/kotlin/com/msagi/hashcode/delivery/model/Map.kt:7-15 | Locations built one after another get strictly increasing ids, so no two share an id |
| Geometry.CeilSqrt | src/main/kotlin/com/msagi/hashcode/delivery/model/Map.kt:54-58 | `ceil(sqrt(n))` on integers: `d*d >= n` and `(d-1)*(d-1) < n` |
| Geometry.CeilSqrtLeast | src/main/kotlin/com/msagi/hashcode/delivery/model/Map.kt:54-58 | CeilSqrt is the least root bound |
| Geometry.DistSymmetric | src/main/kotlin/com/msagi/hashcode/delivery/model/Map.kt:54-58 | The distance formula is symmetric |
| Geometry.DistZero | src/main/kotlin/com/msagi/hashcode/delivery/model/Map.kt:54-58 | The distance is zero exactly when the two grid positions coincide |
| Geometry.DistanceMap.constructor | src/main/kotlin/com/msagi/hashcode/delivery/model/Map.kt:45-47 | A fresh `size x size` cache with every cell -1 |
| Geometry.DistanceMap.Distance | src/main/kotlin/com/msagi/hashcode/delivery/model/Map.kt:52-67 | Returns the exact distance and leaves it in cell `[a.id, b.id]`. A cell already filled is not written. No other cell changes. The cache invariant (each cell -1 or the exact distance) is kept |
| Drones.PayloadLoad | src/main/kotlin/com/msagi/hashcode/delivery/model/Drone.kt:77-85 | Ok exactly when the payload has the product with at least `q` reserved; otherwise NothingReserved |
| Drones.PayloadUnload | src/main/kotlin/com/msagi/hashcode/delivery/model/Drone.kt:89-102 | Ok exactly when the payload has the product with at least `q` loaded; otherwise NothingLoaded |
| Drones.ReserveEffect | src/main/kotlin/com/msagi/hashcode/delivery/model/Drone.kt:64-75 | Reserving within capacity keeps the payload invariants, adds `q` to the product's units held and to its entry's reserved count, and adds `q * weight` to the weight |
| Drones.LoadEffect | src/main/kotlin/com/msagi/hashcode/delivery/model/Drone.kt:77-85 | Loading moves `q` units of the entry from reserved to loaded; units held and weight are unchanged |
| Drones.UnloadEffect | src/main/kotlin/com/msagi/hashcode/delivery/model/Drone.kt:89-102 | Unloading removes `q` units and `q * weight`. An entry left with both counts zero is dropped, so the product's entry, if any remains, holds something |
| Drones.TakeLoaded | src/main/kotlin/com/msagi/hashcode/delivery/model/Drone.kt:89-98 | Taking `q` loaded units from the product's entry keeps the payload invariants with the weight lowered by `q * weight`, and lowers that product's units by `q` |
| Drones.RemoveEmptyEntry | src/main/kotlin/com/msagi/hashcode/delivery/model/Drone.kt:99-101 | `payload.remove(p)` of an empty entry removes exactly that position and keeps weight, units and invariants |
| Drones.WeightNonNegative | src/main/kotlin/com/msagi/hashcode/delivery/model/Drone.kt:6-9 | With non-negative counts and weights, the payload weighs at least zero |
| Drones.CompletesOnCall | src/main/kotlin/com/msagi/hashcode/delivery/model/Drone.kt:20-29 | From idle, the head command completes on exactly the `(1 + d)`-th call, and the countdown returns to -1 |
| Drones.CompleteEffect | src/main/kotlin/com/msagi/hashcode/delivery/model/Drone.kt:31-58 | A completed command moves units and never creates them. The site loses `q` units of the product. A Deliver also takes `q` off the payload and `q * weight` off the weight. A Load keeps units held and weight. The payload invariants hold afterwards |
| Drones.QueueAppend | src/main/kotlin/com/msagi/hashcode/delivery/model/Drone.kt:14-18 | An accepted command extends both the queue and the record of accepted commands |
| Drones.QueuePop | src/main/kotlin/com/msagi/hashcode/delivery/model/Drone.kt:32 | Removing the head keeps the queue a suffix of the accepted commands |
| Drones.Drone.constructor | src/main/kotlin/com/msagi/hashcode/delivery/model/Drone.kt:6-12 | The drone starts at its location: empty payload, weight 0, empty queue, countdown -1 |
| Drones.Drone.EnqueueCommand | src/main/kotlin/com/msagi/hashcode/delivery/model/Drone.kt:14-18 | A command for another drone fails with WrongDrone and changes nothing. Otherwise the command is appended to the queue; nothing else changes |
| Drones.Drone.Reserve | src/main/kotlin/com/msagi/hashcode/delivery/model/Drone.kt:64-75 | Fails with CapacityExceeded, changing nothing, exactly when `totalWeight + q * weight > capacity`. Otherwise the payload becomes PayloadReserve's result and the weight grows by `q * weight` |
| Drones.Drone.FreeCapacityFor | src/main/kotlin/com/msagi/hashcode/delivery/model/Drone.kt:87 | The floor of free weight over product weight: `n * w <= capacity - totalWeight < (n + 1) * w` |
| Drones.Drone.Load | src/main/kotlin/com/msagi/hashcode/delivery/model/Drone.kt:77-85 | The payload becomes PayloadLoad's result on Ok. Otherwise it fails with that error and is unchanged. The weight stays |
| Drones.Drone.Unload | src/main/kotlin/com/msagi/hashcode/delivery/model/Drone.kt:89-102 | The payload becomes PayloadUnload's result and the weight falls by `q * weight` on Ok. Otherwise it fails and both are unchanged |
| Drones.Drone.Arrive | src/main/kotlin/com/msagi/hashcode/delivery/model/Drone.kt:32-57 | After the site's checkout: the head leaves the queue, the drone is at the site, and the payload, weight and outcome are Complete's; the countdown is -1 on success |
| Drones.Drone.AdvanceTime | src/main/kotlin/com/msagi/hashcode/delivery/model/Drone.kt:20-60 | The new state is as Advanced says. The queue, location and countdown become Travel's: an empty queue changes nothing, a countdown not yet at zero only ticks, and at zero the head leaves and the drone stands at the site. At zero the site's checkout and the payload step take effect as Complete says, and every other store keeps its ledger; without arrival the payload, weight and all stores are unchanged. The countdown returns to -1 on success |
| Drones.Travel | src/main/kotlin/com/msagi/hashcode/delivery/model/Drone.kt:20-36 | Where one `advanceTime` call leaves the queue: the head leaves exactly when the countdown reaches zero, and the queue ends empty exactly when it was empty or held one command that now completes; an empty queue stays put |
| Drones.Drone.CompleteHead | src/main/kotlin/com/msagi/hashcode/delivery/model/Drone.kt:31-58 | The completing half of `advanceTime`: pop, move, site checkout, then load or unload, with the effect Complete describes |
| World.Tally | src/main/kotlin/com/msagi/hashcode/delivery/Model.kt:64-72 | One cell per product, holding how often the order lists it |
| World.PositiveMembers | src/main/kotlin/com/msagi/hashcode/delivery/Model.kt:72 | `filter { available > 0 }` keeps exactly the cells with available > 0 |
| World.OrderEntriesExact | src/main/kotlin/com/msagi/hashcode/delivery/Model.kt:61-73 | An order's ledger has one entry per product ordered at least once, in id order, carrying that product's count and nothing reserved |
| World.StockEntries | src/main/kotlin/com/msagi/hashcode/delivery/Model.kt:43-46 | One entry per stock cell: entry `j` is `stock[j]` units of product `j`, none reserved |
| World.StockLedger | src/main/kotlin/com/msagi/hashcode/delivery/Model.kt:43-46 | The `forEachIndexed` loop gives entry `j` = `stock[j]` units of product `j` |
| World.CollapseOrderItems | src/main/kotlin/com/msagi/hashcode/delivery/Model.kt:62-72 | The increment loop and filter give OrderEntries of the listed ids |
| World.ReadWarehouses | src/main/kotlin/com/msagi/hashcode/delivery/Model.kt:34-48 | Warehouse `i` has id `i`, the coordinates of line `4 + 2i`, location id `i`, and the stock of line `5 + 2i` |
| World.ReadOrders | src/main/kotlin/com/msagi/hashcode/delivery/Model.kt:50-75 | Order `i` has id `i`, the coordinates of its first line, location id `warehouses + i`, and the collapsed ledger of its third line |
| World.MakeDrones | src/main/kotlin/com/msagi/hashcode/delivery/Model.kt:80-85 | Drone `i` has id `i`, starts at the given location (the first warehouse) with the given capacity, and has an empty queue and payload |
| World.InputStocked | src/main/kotlin/com/msagi/hashcode/delivery/Model.kt:34-75 | The ledgers read from well-formed input are well formed: full, non-negative warehouse stock and distinct, catalogued order entries |
| World.NewDistanceMap | src/main/kotlin/com/msagi/hashcode/delivery/Model.kt:77-78 | The cache is sized to the locations created and knows every warehouse and order site |
| World.Min3 | src/main/kotlin/com/msagi/hashcode/delivery/algorithm/ChopChopDumbAlgorithm.kt:38-42 | `listOf(a, b, c).min()`: at most each argument and equal to one of them |
| World.WriteBack | src/main/kotlin/com/msagi/hashcode/delivery/algorithm/GreedyHeavyLiftingAlgorithm.kt:78-81 | Each of a list of distinct stores takes its new ledger |
| World.FindInStock | src/main/kotlin/com/msagi/hashcode/delivery/model/Map.kt:18-19 | In a warehouse ledger, `getProduct` of a catalogued product finds entry number `id` |
| World.OrderIsNoWarehouse | src/main/kotlin/com/msagi/hashcode/delivery/Model.kt:34-75 | An order of the model is never one of its warehouses |
| World.Model.constructor | src/main/kotlin/com/msagi/hashcode/delivery/Model.kt:15-87 | The deadline, load, drone count, products `Product(i, weight_i)`, warehouses and orders are as the input lines say. Every order is pending. The cache is sized to all sites. The drones start at warehouse 0, empty. The model invariant holds |
| ChopChop.GreedyTotal | src/main/kotlin/com/msagi/hashcode/delivery/algorithm/ChopChopDumbAlgorithm.kt:32-62 | The warehouse loop loads `min(need, free capacity, total stock)` units in all, at strictly increasing warehouses, each within its stock |
| ChopChop.GreedySaturated | src/main/kotlin/com/msagi/hashcode/delivery/algorithm/ChopChopDumbAlgorithm.kt:44-60 | Once the entry is covered or the drone is full, later warehouses add nothing |
| ChopChop.GreedyFull | src/main/kotlin/com/msagi/hashcode/delivery/algorithm/ChopChopDumbAlgorithm.kt:32-62 | When neither need nor capacity bound the loads, every warehouse gives all of its stock |
| ChopChop.GreedyNext | src/main/kotlin/com/msagi/hashcode/delivery/algorithm/ChopChopDumbAlgorithm.kt:36-60 | One warehouse turn: a positive `min` appends one load, and the `return@loadProductFromWarehouses` exits change nothing afterwards |
| ChopChop.GreedySkip | src/main/kotlin/com/msagi/hashcode/delivery/algorithm/ChopChopDumbAlgorithm.kt:36 | A warehouse with none of the product adds no load |
| ChopChop.GreedyPicksOk | src/main/kotlin/com/msagi/hashcode/delivery/algorithm/ChopChopDumbAlgorithm.kt:48-55 | Every load is at an existing warehouse and for a positive quantity |
| ChopChop.ChopCommandsOk | src/main/kotlin/com/msagi/hashcode/delivery/algorithm/ChopChopDumbAlgorithm.kt:54-65 | Every command of a call is for the drone, for a catalogued product, with a non-negative quantity, at an existing site |
| ChopChop.FirstWithOutstanding | src/main/kotlin/com/msagi/hashcode/delivery/algorithm/ChopChopDumbAlgorithm.kt:26 | The first order with an outstanding entry, or None exactly when no order has one |
| ChopChop.FirstOpen | src/main/kotlin/com/msagi/hashcode/delivery/algorithm/ChopChopDumbAlgorithm.kt:26 | The source's condition `!isCompleted && outstanding non-empty` picks the same order as FirstWithOutstanding |
| ChopChop.ReserveAllOnce | src/main/kotlin/com/msagi/hashcode/delivery/algorithm/ChopChopDumbAlgorithm.kt:50 | Reserving the loads one by one on the drone equals one reservation of their total |
| ChopChop.FreeAfterLoads | src/main/kotlin/com/msagi/hashcode/delivery/algorithm/ChopChopDumbAlgorithm.kt:38-50 | After `t` units of weight `w` are reserved, the drone's free capacity for the product is `t` lower |
| ChopChop.LoadsSettle | src/main/kotlin/com/msagi/hashcode/delivery/algorithm/ChopChopDumbAlgorithm.kt:48-49 | After the loop, every warehouse ledger and the order ledger are still well formed, and the warehouses are the start moved by the loads |
| ChopChop.LoadTurn | src/main/kotlin/com/msagi/hashcode/delivery/algorithm/ChopChopDumbAlgorithm.kt:33-61 | One warehouse turn of the loop keeps the loop's account (commands, ledgers and total so far match Greedy up to this warehouse) one warehouse further |
| ChopChop.LoadPlan | src/main/kotlin/com/msagi/hashcode/delivery/algorithm/ChopChopDumbAlgorithm.kt:32-62 | The loop on ledger values: the loads are Greedy's. The entry moves `delivered` to reserved. Each warehouse moves what it gave. The total is within the free capacity, and positive exactly when something was loaded |
| ChopChop.LoadFromWarehouses | src/main/kotlin/com/msagi/hashcode/delivery/algorithm/ChopChopDumbAlgorithm.kt:32-62 | The same on the stores in place, with the new ledgers written back |
| ChopChop.LoadEntry | src/main/kotlin/com/msagi/hashcode/delivery/algorithm/ChopChopDumbAlgorithm.kt:32-62 | The warehouse loop on the model's stores: Greedy's loads, the order entry shifted by the total, the warehouses moved, every ledger still well formed and other orders unchanged |
| ChopChop.LoadOrder | src/main/kotlin/com/msagi/hashcode/delivery/algorithm/ChopChopDumbAlgorithm.kt:32-62 | The loop on the model: as LoadFromWarehouses. The model invariant is kept and other orders are unchanged |
| ChopChop.ReserveTotal | src/main/kotlin/com/msagi/hashcode/delivery/algorithm/ChopChopDumbAlgorithm.kt:50 | The drone's payload becomes the reservations of every load in turn. The weight grows by the total. Free capacity falls by the total. Queue and location are unchanged |
| ChopChop.DroneReserve | src/main/kotlin/com/msagi/hashcode/delivery/algorithm/ChopChopDumbAlgorithm.kt:50 | The same on a drone of the model, with the model invariant kept and no store ledger changed |
| ChopChop.Serve | src/main/kotlin/com/msagi/hashcode/delivery/algorithm/ChopChopDumbAlgorithm.kt:29-67 | For entry `k` of the order: Greedy's loads, then one Deliver of their total. The entry, warehouses and drone change as described. Other orders, the drone's queue and its location are unchanged |
| ChopChop.ChopChopAlgorithm.constructor | src/main/kotlin/com/msagi/hashcode/delivery/algorithm/ChopChopDumbAlgorithm.kt:17-20 | `init` keeps the model |
| ChopChop.ChopChopAlgorithm.GetCommandsFor | src/main/kotlin/com/msagi/hashcode/delivery/algorithm/ChopChopDumbAlgorithm.kt:22-68 | No order with an outstanding entry: no command and nothing changes. Otherwise it serves the first outstanding entry of the first such order, as Serve says, and leaves everything else unchanged |
| HeavyLifting.SortedBy | src/main/kotlin/com/msagi/hashcode/delivery/algorithm/GreedyHeavyLiftingAlgorithm.kt:48 | `sortedBy`: every position once, by non-decreasing key, equal keys in their original order (stable) |
| HeavyLifting.SortPrefix | src/main/kotlin/com/msagi/hashcode/delivery/algorithm/GreedyHeavyLiftingAlgorithm.kt:48 | The first `n` positions in stable order of their keys, each exactly once |
| HeavyLifting.InsertOrdered | src/main/kotlin/com/msagi/hashcode/delivery/algorithm/GreedyHeavyLiftingAlgorithm.kt:48 | Insertion of a later position keeps the listing stably sorted |
| HeavyLifting.InsertCount | src/main/kotlin/com/msagi/hashcode/delivery/algorithm/GreedyHeavyLiftingAlgorithm.kt:48 | Insertion adds exactly one copy of the position |
| HeavyLifting.Closest | src/main/kotlin/com/msagi/hashcode/delivery/algorithm/GreedyHeavyLiftingAlgorithm.kt:68-71 | `filter { stock > 0 }.sortedBy { cost }.first()`: a warehouse with stock and the least cost, the earliest among equal costs; None exactly when no warehouse has stock |
| HeavyLifting.Costs | src/main/kotlin/com/msagi/hashcode/delivery/algorithm/GreedyHeavyLiftingAlgorithm.kt:70 | Each warehouse's cost is its detour from the drone location via the warehouse to the order, plus the direct distance |
| HeavyLifting.Room | src/main/kotlin/com/msagi/hashcode/delivery/algorithm/GreedyHeavyLiftingAlgorithm.kt:61-66 | The room for the next unit: never less than one unit's weight (a fresh payload of `maxDroneLoad` opens when needed), and the remainder itself whenever one unit still fits |
| HeavyLifting.BookedAdd | src/main/kotlin/com/msagi/hashcode/delivery/algorithm/GreedyHeavyLiftingAlgorithm.kt:86 | Adding an item books its units for the last payload's order only |
| HeavyLifting.DrawnAdd | src/main/kotlin/com/msagi/hashcode/delivery/algorithm/GreedyHeavyLiftingAlgorithm.kt:86 | Adding an item draws its units from its own warehouse and product only |
| HeavyLifting.BookOnce | src/main/kotlin/com/msagi/hashcode/delivery/algorithm/GreedyHeavyLiftingAlgorithm.kt:61-86 | One pass: `q = min(need, warehouse stock, room / weight)` is positive. Both ledgers move `q` to reserved. The drone location becomes the warehouse. The remainder falls by `q * weight`. The item joins the open payload |
| HeavyLifting.Take | src/main/kotlin/com/msagi/hashcode/delivery/algorithm/GreedyHeavyLiftingAlgorithm.kt:61-86 | The booking step as a function. The draft stays workable: ledgers well formed, payloads within `maxDroneLoad`. Only warehouse `w` and order entry `k` change, the entry's need drops strictly, and the drone is imagined at `w` |
| HeavyLifting.TakeFacts | src/main/kotlin/com/msagi/hashcode/delivery/algorithm/GreedyHeavyLiftingAlgorithm.kt:76-77 | `min(need, stock, floor(room / weight))` is positive and its weight fits in the room |
| HeavyLifting.PassOf | src/main/kotlin/com/msagi/hashcode/delivery/algorithm/GreedyHeavyLiftingAlgorithm.kt:59-87 | One loop pass: None exactly when no warehouse holds the product. Otherwise the need of entry `k` drops strictly and no other entry changes |
| HeavyLifting.EntryOf | src/main/kotlin/com/msagi/hashcode/delivery/algorithm/GreedyHeavyLiftingAlgorithm.kt:59-89 | The whole `while` loop for entry `k`: on success that entry needs nothing and no other entry changes |
| HeavyLifting.BookAt | src/main/kotlin/com/msagi/hashcode/delivery/algorithm/GreedyHeavyLiftingAlgorithm.kt:61-86 | One pass at warehouse `w`, which holds the product. `q = min(need, stock, room / weight)` is positive. The warehouse entry and the order entry each move `q` to reserved, and nothing else changes. The drone is imagined at `w`, the room falls by `q * weight`, and the item joins the open payload. The result is Take |
| HeavyLifting.BookPass | src/main/kotlin/com/msagi/hashcode/delivery/algorithm/GreedyHeavyLiftingAlgorithm.kt:59-87 | One loop pass: fails with NoWarehouseWithStock exactly when no warehouse holds the product (the source's `first()` throws). Otherwise it is Take at the warehouse Closest picks by detour cost from the imagined drone location |
| HeavyLifting.BookEntry | src/main/kotlin/com/msagi/hashcode/delivery/algorithm/GreedyHeavyLiftingAlgorithm.kt:59-89 | `while (outstandingItem.available > 0)`: passes until the entry needs nothing. Pass exactly when EntryOf succeeds, and the result is then EntryOf's. The entry's need is then 0, the accounts hold, and other entries are unchanged |
| HeavyLifting.EntriesOf | src/main/kotlin/com/msagi/hashcode/delivery/algorithm/GreedyHeavyLiftingAlgorithm.kt:57-91 | `getOutstandingItems().forEach`: on success every listed entry needs nothing and every other entry is unchanged |
| HeavyLifting.EntriesStep | src/main/kotlin/com/msagi/hashcode/delivery/algorithm/GreedyHeavyLiftingAlgorithm.kt:57-91 | EntriesOf from position `i` is EntryOf of entry `i` followed by EntriesOf from `i + 1`, and it fails when that entry fails |
| HeavyLifting.OrderOf | src/main/kotlin/com/msagi/hashcode/delivery/algorithm/GreedyHeavyLiftingAlgorithm.kt:50-92 | One order, with the drone imagined at the order and no room: on success the ledgers stay well formed and the order is settled |
| HeavyLifting.PlanOrder | src/main/kotlin/com/msagi/hashcode/delivery/algorithm/GreedyHeavyLiftingAlgorithm.kt:50-92 | One order. Pass exactly when OrderOf succeeds, and the ledgers and cache are then OrderOf's. On Pass nothing is outstanding. Each warehouse entry moved to reserved what the new payloads draw from it. Each order entry moved what they book for it. The new payloads are appended, all for this order, and each weighs at most `maxDroneLoad` with at least one item |
| HeavyLifting.PlanAll | src/main/kotlin/com/msagi/hashcode/delivery/algorithm/GreedyHeavyLiftingAlgorithm.kt:46-93 | All ranked orders in turn. Pass exactly when AllOf succeeds, and the result is then AllOf's. Every ledger accounts for the payloads, every ranked order is settled, and the payloads come in one run per order in rank order |
| HeavyLifting.AllOf | src/main/kotlin/com/msagi/hashcode/delivery/algorithm/GreedyHeavyLiftingAlgorithm.kt:48-93 | All ranked orders, each by OrderOf: on success the ledgers stay well formed |
| HeavyLifting.AllOfKeeps | src/main/kotlin/com/msagi/hashcode/delivery/algorithm/GreedyHeavyLiftingAlgorithm.kt:48-93 | An order already settled stays settled through the later orders |
| HeavyLifting.AllOfSettled | src/main/kotlin/com/msagi/hashcode/delivery/algorithm/GreedyHeavyLiftingAlgorithm.kt:48-93 | On success every ranked order is settled |
| HeavyLifting.AllStep | src/main/kotlin/com/msagi/hashcode/delivery/algorithm/GreedyHeavyLiftingAlgorithm.kt:48-93 | AllOf from rank position `m` is OrderOf of that order followed by AllOf from `m + 1`, and it fails when that order fails |
| HeavyLifting.StockAt | src/main/kotlin/com/msagi/hashcode/delivery/algorithm/GreedyHeavyLiftingAlgorithm.kt:69 | In a ledger indexed by product id, a product's stock is its entry's available count, and 0 for an unknown id |
| HeavyLifting.StockAdjust | src/main/kotlin/com/msagi/hashcode/delivery/algorithm/GreedyHeavyLiftingAlgorithm.kt:80 | Moving `q` units of one product to reserved lowers that product's stock by `q` and leaves every other product's |
| HeavyLifting.SupplyUpdate | src/main/kotlin/com/msagi/hashcode/delivery/algorithm/GreedyHeavyLiftingAlgorithm.kt:80 | Replacing one warehouse ledger changes the total supply of a product by the difference of that ledger's stock |
| HeavyLifting.SupplyNone | src/main/kotlin/com/msagi/hashcode/delivery/algorithm/GreedyHeavyLiftingAlgorithm.kt:68-71 | When no warehouse holds a product, its total supply is at most 0 |
| HeavyLifting.SupplyNonNegative | src/main/kotlin/com/msagi/hashcode/delivery/algorithm/GreedyHeavyLiftingAlgorithm.kt:68-71 | With well-formed warehouse ledgers, the supply of every product is non-negative |
| HeavyLifting.NeedAdjust | src/main/kotlin/com/msagi/hashcode/delivery/algorithm/GreedyHeavyLiftingAlgorithm.kt:78 | Adjusting one order entry changes its product's need by the available delta and no other product's need |
| HeavyLifting.NeedAtLeast | src/main/kotlin/com/msagi/hashcode/delivery/algorithm/GreedyHeavyLiftingAlgorithm.kt:57-59 | An order's need for a product is non-negative and at least any one entry's outstanding count |
| HeavyLifting.NeedSettled | src/main/kotlin/com/msagi/hashcode/delivery/algorithm/GreedyHeavyLiftingAlgorithm.kt:57-59 | A settled order needs nothing |
| HeavyLifting.DemandUpdate | src/main/kotlin/com/msagi/hashcode/delivery/algorithm/GreedyHeavyLiftingAlgorithm.kt:78 | Replacing one order ledger changes the total demand by the difference of that order's need |
| HeavyLifting.DemandAtLeast | src/main/kotlin/com/msagi/hashcode/delivery/algorithm/GreedyHeavyLiftingAlgorithm.kt:48-50 | The total demand for a product is at least any one order's need |
| HeavyLifting.DemandNonNegative | src/main/kotlin/com/msagi/hashcode/delivery/algorithm/GreedyHeavyLiftingAlgorithm.kt:48-50 | The total demand for a product is non-negative |
| HeavyLifting.DemandSettled | src/main/kotlin/com/msagi/hashcode/delivery/algorithm/GreedyHeavyLiftingAlgorithm.kt:97-101 | When every order is settled, no product is in demand |
| HeavyLifting.TakeGap | src/main/kotlin/com/msagi/hashcode/delivery/algorithm/GreedyHeavyLiftingAlgorithm.kt:77-81 | A booking lowers the supply and the need of its product by the same `q`: supply minus need is unchanged for every product |
| HeavyLifting.EntryGap | src/main/kotlin/com/msagi/hashcode/delivery/algorithm/GreedyHeavyLiftingAlgorithm.kt:59-89 | Through an entry's loop, supply minus need is unchanged for every product; when the loop fails, some product's supply was below its need |
| HeavyLifting.EntriesGap | src/main/kotlin/com/msagi/hashcode/delivery/algorithm/GreedyHeavyLiftingAlgorithm.kt:57-91 | The same through all of an order's entries |
| HeavyLifting.OrderGap | src/main/kotlin/com/msagi/hashcode/delivery/algorithm/GreedyHeavyLiftingAlgorithm.kt:50-92 | The same for one order |
| HeavyLifting.AllGap | src/main/kotlin/com/msagi/hashcode/delivery/algorithm/GreedyHeavyLiftingAlgorithm.kt:48-93 | Through all ranked orders, supply minus total demand is unchanged for every product; when planning fails, some product's supply was below its demand |
| HeavyLifting.AllOfEnough | src/main/kotlin/com/msagi/hashcode/delivery/algorithm/GreedyHeavyLiftingAlgorithm.kt:43-101 | With every pending order ranked, planning succeeds exactly when, for every product, the warehouses hold at least what the orders lack |
| HeavyLifting.SettledBooked | src/main/kotlin/com/msagi/hashcode/delivery/algorithm/GreedyHeavyLiftingAlgorithm.kt:57-88 | Once an order is settled, the payloads carry to it exactly what it had outstanding, and its entries hold that amount as reserved |
| HeavyLifting.InitDone | src/main/kotlin/com/msagi/hashcode/delivery/algorithm/GreedyHeavyLiftingAlgorithm.kt:97-101 | After planning, no pending order has an outstanding entry (the self-check finds nothing), and every payload is for an order of the model |
| HeavyLifting.Plan | src/main/kotlin/com/msagi/hashcode/delivery/algorithm/GreedyHeavyLiftingAlgorithm.kt:43-104 | `init` on ledger values: ranks the pending orders with SortedBy of their outstanding counts. Pass exactly when, for every product, the warehouses hold at least what the pending orders lack (Enough). The result is AllOf's. On Pass every order is reserved and settled, the ledgers stay well formed, and the payloads are ready for a drone |
| HeavyLifting.Prepare | src/main/kotlin/com/msagi/hashcode/delivery/algorithm/GreedyHeavyLiftingAlgorithm.kt:43-104 | The same, starting from the model's ledgers: Pass exactly when Enough holds and exactly when InitOf succeeds, and the planned ledgers and payloads are InitOf's. The outcome is Pass or NoWarehouseWithStock |
| HeavyLifting.CommitWarehouses | src/main/kotlin/com/msagi/hashcode/delivery/algorithm/GreedyHeavyLiftingAlgorithm.kt:80-81 | The warehouses take the planned ledgers; the model invariant holds |
| HeavyLifting.CommitOrders | src/main/kotlin/com/msagi/hashcode/delivery/algorithm/GreedyHeavyLiftingAlgorithm.kt:78-79 | The pending orders take the planned ledgers; the warehouses are unchanged and the model invariant holds |
| HeavyLifting.Commit | src/main/kotlin/com/msagi/hashcode/delivery/algorithm/GreedyHeavyLiftingAlgorithm.kt:78-81 | Both of the above |
| HeavyLifting.Install | src/main/kotlin/com/msagi/hashcode/delivery/algorithm/GreedyHeavyLiftingAlgorithm.kt:78-86 | The planned ledgers and payload cache are installed, and the model invariant holds |
| HeavyLifting.HeavyLiftingAlgorithm.constructor | src/main/kotlin/com/msagi/hashcode/delivery/algorithm/GreedyHeavyLiftingAlgorithm.kt:35-41 | The policy keeps the model with an empty payload cache |
| HeavyLifting.HeavyLiftingAlgorithm.Init | src/main/kotlin/com/msagi/hashcode/delivery/algorithm/GreedyHeavyLiftingAlgorithm.kt:43-104 | Fails with NoWarehouseWithStock exactly when, for some product, the warehouses held fewer units than the pending orders lacked. On Pass the model's ledgers and the cache are InitOf's planned ones, every order is reserved and settled, and the model invariant holds |
| HeavyLifting.ReserveItemsEffect | src/main/kotlin/com/msagi/hashcode/delivery/algorithm/GreedyHeavyLiftingAlgorithm.kt:118-122 | Reserving a payload's items within capacity keeps the drone's invariants and adds each item's units |
| HeavyLifting.TripCommandsOk | src/main/kotlin/com/msagi/hashcode/delivery/algorithm/GreedyHeavyLiftingAlgorithm.kt:118-131 | A payload gives all Loads then all Delivers. Load `j` and Deliver `j` carry item `j`. Every command is for the drone, at an existing site, with a positive quantity |
| HeavyLifting.ReserveNext | src/main/kotlin/com/msagi/hashcode/delivery/algorithm/GreedyHeavyLiftingAlgorithm.kt:120-123 | One `drone.reserve` of the loop: on Pass the drone holds one more item and stays within capacity; on Fail the payload does not fit the drone and the drone is unchanged |
| HeavyLifting.ReservePayload | src/main/kotlin/com/msagi/hashcode/delivery/algorithm/GreedyHeavyLiftingAlgorithm.kt:118-131 | `drone.reserve` of each item: Pass exactly when the payload fits the drone, and then the commands are TripCommands and the drone holds the items. Otherwise CapacityExceeded and no commands |
| HeavyLifting.HeavyLiftingAlgorithm.GetCommandsFor | src/main/kotlin/com/msagi/hashcode/delivery/algorithm/GreedyHeavyLiftingAlgorithm.kt:106-132 | An empty cache gives no command and changes nothing. Otherwise the head payload leaves the cache and is handed out as ReservePayload says. The queue and location stay |
| Simulations.CeilDiv | src/main/kotlin/com/msagi/hashcode/delivery/Simulation.kt:59 | The least integer `r` with `a <= r * b` |
| Simulations.ScoreRange | src/main/kotlin/com/msagi/hashcode/delivery/Simulation.kt:59 | An order completed before the deadline scores between 1 and 100 |
| Simulations.ScoreFalls | src/main/kotlin/com/msagi/hashcode/delivery/Simulation.kt:59 | A later completion never scores more |
| Simulations.ScoreBounds | src/main/kotlin/com/msagi/hashcode/delivery/Simulation.kt:57-60 | Adding `r` orders at 1 to 100 points each to a score within 1 to 100 points per earlier order keeps it within 1 to 100 points per order |
| Simulations.SolutionRoundTrip | src/main/kotlin/com/msagi/hashcode/delivery/Simulation.kt:64-70 | Splitting the solution text at line breaks gives its lines back: the first parses to the number of commands, and line `i + 1` parses back to command `i`'s fields |
| Simulations.Advance | src/main/kotlin/com/msagi/hashcode/delivery/Simulation.kt:24 | `drone.advanceTime()` on the model's drone: the effect is Advanced's, as for AdvanceTime (travel, arrival, checkout and payload step, other stores unchanged). It keeps the model invariant when it does not throw, and never changes the ledger of an order that was completed |
| Simulations.CompleteAtCompleted | src/main/kotlin/com/msagi/hashcode/delivery/model/Drone.kt:31-58 | Completing a command with a non-negative quantity at a completed order leaves that order's ledger as it was |
| Simulations.ChopChopCommands | src/main/kotlin/com/msagi/hashcode/delivery/algorithm/ChopChopDumbAlgorithm.kt:22-46 | The commands are ChopAnswer's: none when no order has an outstanding entry; otherwise the Loads of the Greedy plan over the warehouses for the first outstanding entry, capped by the drone's free capacity, then one Deliver of the plan's total. Every command is for the drone and can be queued; the drone stays where it is; a completed order's ledger is never touched |
| Simulations.HeavyLiftingCommands | src/main/kotlin/com/msagi/hashcode/delivery/algorithm/GreedyHeavyLiftingAlgorithm.kt:106-132 | The outcome and commands are HeavyAnswer's: nothing for an empty cache; TripCommands of the head payload when it fits the drone; otherwise CapacityExceeded and no commands. The head payload leaves the cache. Every command is for the drone; the drone stays where it is |
| Simulations.CommandsFor | src/main/kotlin/com/msagi/hashcode/delivery/algorithm/Algorithm.kt:7-20 | `getCommandsFor` through the policy in use: the outcome and commands are Answer's (ChopAnswer or HeavyAnswer at the call's state). The first-fit policy never fails. Every command handed out is for the drone, the drone stays where it is, and no completed order's ledger changes |
| Simulations.ForDrone | src/main/kotlin/com/msagi/hashcode/delivery/Simulation.kt:16 | The history's commands for one drone, in order, each from the history |
| Simulations.ForDroneBatch | src/main/kotlin/com/msagi/hashcode/delivery/Simulation.kt:26-29 | A batch of commands for one drone is all of that drone's part of the batch and none of another drone's |
| Simulations.ForDroneAppend | src/main/kotlin/com/msagi/hashcode/delivery/Simulation.kt:16 | The history filtered by drone splits over appending |
| Simulations.Enqueue | src/main/kotlin/com/msagi/hashcode/delivery/Simulation.kt:28 | A policy's command joins the drone's queue, and the model invariant holds |
| Simulations.Completed | src/main/kotlin/com/msagi/hashcode/delivery/Simulation.kt:36 | `filter { isCompleted }`: the completed orders of the list |
| Simulations.CompletedCount | src/main/kotlin/com/msagi/hashcode/delivery/Simulation.kt:36 | Each completed order occurs in the filter as often as in the list; others not at all |
| Simulations.NoneCompletedLeft | src/main/kotlin/com/msagi/hashcode/delivery/Simulation.kt:36-38 | Once the completed orders are removed from a list of distinct orders, no completed order is left |
| Simulations.Unfinished | src/main/kotlin/com/msagi/hashcode/delivery/Simulation.kt:36-38 | The pending orders that are not completed, in list order |
| Simulations.ExceptCompleted | src/main/kotlin/com/msagi/hashcode/delivery/Simulation.kt:36-38 | Dropping exactly the completed orders with a filter gives Unfinished |
| Simulations.InOrder | src/main/kotlin/com/msagi/hashcode/delivery/Simulation.kt:36-38 | Removing the completed orders one by one, in the order `filter` lists them, from a list of distinct orders leaves Unfinished: the remaining orders keep their order |
| Simulations.OrderCompleted | src/main/kotlin/com/msagi/hashcode/delivery/Simulation.kt:57-62 | `orderCompleted`: the pending list becomes RemoveFirst of the order (its first copy goes, the rest keep their order) and the score is added |
| Simulations.CompleteAll | src/main/kotlin/com/msagi/hashcode/delivery/Simulation.kt:36-38 | Each order in turn: the pending list becomes RemoveAll of them, in order, and the total grows by their number times the score |
| Simulations.Settle | src/main/kotlin/com/msagi/hashcode/delivery/Simulation.kt:36-38 | Exactly the completed orders leave the pending list, which becomes Unfinished of the old list (order kept); each order that leaves is completed. None completed remains, and each scores `Score(deadline, time)` |
| Simulations.Simulation.constructor | src/main/kotlin/com/msagi/hashcode/delivery/Simulation.kt:10-16 | Score 0, time 0, empty history |
| Simulations.Simulation.Record | src/main/kotlin/com/msagi/hashcode/delivery/Simulation.kt:28-29 | `enqueueCommand` and `commandHistory.add`: the command is appended to the history, to the drone's queue and to that drone's accepted commands |
| Simulations.Simulation.Dispatch | src/main/kotlin/com/msagi/hashcode/delivery/Simulation.kt:26-30 | Every command in turn: the history and the drone's queue each grow by exactly the commands, in order |
| Simulations.Simulation.AdvanceDrone | src/main/kotlin/com/msagi/hashcode/delivery/Simulation.kt:24 | The drone's tick has Advanced's effect; no other drone moves. The simulation invariant holds after a tick that does not throw; no completed order's ledger changes |
| Simulations.Simulation.ServeDrone | src/main/kotlin/com/msagi/hashcode/delivery/Simulation.kt:26-30 | The outcome and commands are the policy's Answer at the call's state. The commands, all for this drone, are appended to the history and to the drone's queue; the drone and every other drone stay where they are. The history never shrinks, and no completed order's ledger changes |
| Simulations.Simulation.ServeIfIdle | src/main/kotlin/com/msagi/hashcode/delivery/Simulation.kt:25-34 | `if (drone.isIdle())`: an idle drone gets exactly the policy's Answer at the state the advance left, appended to its queue and the history; a busy one gets nothing. No drone moves |
| Simulations.Simulation.Tick | src/main/kotlin/com/msagi/hashcode/delivery/Simulation.kt:24-34 | One drone's turn: its queue, location and countdown become Travel's, and it is idle exactly when Travel leaves its queue empty; then its queue is the travelled queue plus the new commands, which are empty unless it is idle. No other drone moves. The history grows by commands for this drone only, and no completed order's ledger changes |
| Simulations.Simulation.TakeTurn | src/main/kotlin/com/msagi/hashcode/delivery/Simulation.kt:23-34 | Drone `j`'s turn inside `forEach`: the first `j + 1` drones have now taken their turns as TurnsTaken says, and the history grows by the new batch |
| Simulations.TurnsTakenStep | src/main/kotlin/com/msagi/hashcode/delivery/Simulation.kt:23-34 | When drone `j` takes its turn as TookTurn says and no other drone moves, the first `j + 1` drones have taken their turns |
| Simulations.Simulation.ServeDrones | src/main/kotlin/com/msagi/hashcode/delivery/Simulation.kt:23-35 | Drones in list order (Served): drone `j` moved as Travel says from where it stood and was handed batch `j`, which is empty unless Travel left it idle. The history grows by the batches in order, batch `j` all for drone `j`. It never shrinks, and no completed order's ledger changes |
| Simulations.Simulation.SettleOrders | src/main/kotlin/com/msagi/hashcode/delivery/Simulation.kt:36-39 | Exactly the completed orders are removed, the list keeping its order (Unfinished), each scored at the current time, and no order ledger changes; then `time++` |
| Simulations.Simulation.Tock | src/main/kotlin/com/msagi/hashcode/delivery/Simulation.kt:39 | `time++` once the score is in: the simulation invariant holds again |
| Simulations.Simulation.Step | src/main/kotlin/com/msagi/hashcode/delivery/Simulation.kt:22-39 | One tick. The history grows by one batch per drone, batch `j` for drone `j`, and never shrinks. Only completed orders leave, and completed ledgers stay untouched. On Pass the time rises by one, none completed remains, and each order that left scores `Score(deadline, time)`. On Fail the time and the pending list are unchanged |
| Simulations.Simulation.Turn | src/main/kotlin/com/msagi/hashcode/delivery/Simulation.kt:21-39 | One pass of the `while` loop keeps what run promises from its start (Since): the clock stays within the deadline, orders only leave and only completed ones, the history only grows, and each order that left added between 1 and 100 points. On Pass the clock moves by one; on Fail it stays |
| Simulations.Simulation.Run | src/main/kotlin/com/msagi/hashcode/delivery/Simulation.kt:18-40 | The clock never passes the deadline. The loop ends at the deadline or with no order pending. Orders only leave, and only completed ones. Each order that left added between 1 and 100 points. The history never shrinks |
| Simulations.Simulation.ToSolutionString | src/main/kotlin/com/msagi/hashcode/delivery/Simulation.kt:64-70 | The text is SolutionText of the history: the count line, then one line per command |

## Left out

- Simulations.Simulation.Tick: states the idle drone's new commands only as its queue after travel plus `added`. That `added` is the policy's Answer is stated by ServeIfIdle, at the state the advance leaves, which a postcondition of Tick cannot name.
- Simulations.Simulation.ServeDrones: Served says how each drone moved and which batch it got, but not that batch `j` is the policy's Answer; the policy's state changes as the drones before `j` are served, and each answer is stated per drone by ServeIfIdle.
- Simulations.Simulation.Step: does not repeat ServeDrones' Served; drone movement and batches are stated per tick by ServeDrones. Step states the history, the orders, the clock and the score.
- Simulations.Simulation.Turn: carries Since, which says nothing about drone positions or which commands were issued; those are stated per tick by ServeDrones.
- Simulations.Simulation.Run: states the clock, the orders, the score and that the history only grows. It does not accumulate drone movement or the policy's commands over the run; those are stated per tick by ServeDrones and per drone by ServeIfIdle.
- Kotlin's 32-bit `Int` arithmetic is not modelled. Integers are unbounded, so the overflow of `quantity * product.weight` (Drone.kt:65), of `r * r + c * c` (Map.kt:57) and of `(deadline - time) * 100` (Simulation.kt:59) is not captured.
- Floating point is replaced by exact integer counterparts. The model uses `CeilSqrt` for `ceil(sqrt(...))` (Map.kt:57). It uses floor division for `floor(x.toDouble() / w)` (Drone.kt:87, GreedyHeavyLiftingAlgorithm.kt:76). It uses `CeilDiv` for the score's `ceil` (Simulation.kt:59). The rounding of doubles on very large values is not captured.
- Drones and sites are identified by id, not by object reference. `command.drone != this` (Drone.kt:15) is modelled as an id comparison. Commands carry the drone id and the site id, and sites are looked up in the model's registries by id.
- A command's `stock: StoreProduct` (DroneCommand.kt:12,15,23,26) is reduced to a fixed quantity. This matches the source only because both policies build a fresh `StoreProduct` for every command, so no one else mutates it.
- Ledger cells are values in a sequence, not shared mutable objects. The source's aliasing of an order's cell through `getOutstandingItems()` is modelled with an index into the order's ledger.
- ChopChop.DroneReserve: the first-fit policy's `drone.reserve` inside the warehouse loop (ChopChopDumbAlgorithm.kt:50) is made after the loop. The drone reserves each load in turn (`ReserveAll`), and `FreeAfterLoads` shows that the free capacity re-read on each turn equals the starting value minus what was loaded. The payload, weight and free capacity therefore match the source's per-warehouse order.
- World.Model.constructor: `WellFormedInput` requires what the problem's input format guarantees but Model.kt does not check. That is positive product weights (Model.kt:32), a stock line exactly one entry per product with no negative count (Model.kt:43-46), non-negative counts, and a warehouse whenever there are drones (Model.kt:83). Input that breaks these makes the source throw or build inconsistent ledgers; the model does not describe that.
- Drones.Drone.EnqueueCommand: requires a non-negative quantity and a product of the catalogue. The source accepts any command here. The two policies only issue such commands (ChopCommandsOk, TripCommandsOk).
- Drones.Drone.Reserve: requires `q >= 0`. The source accepts a negative quantity, which would lower the weight.
- HeavyLifting.HeavyLiftingAlgorithm.Init: requires that every product weighs more than zero and no more than `maxDroneLoad`. Without that, the source's `while (outstandingItem.available > 0)` (GreedyHeavyLiftingAlgorithm.kt:59-66) never ends, because a fresh payload cannot hold one unit.
- The heavy-lifting planner works on copies of the ledgers and writes them back when it succeeds. When a pass finds no warehouse with stock, the source's `first()` throws after earlier reservations were made. The model reports `Fail(NoWarehouseWithStock)` and promises nothing about the model's ledgers in that case.
- Throws are modelled as an `Outcome` (`Pass`, or `Fail` with an error kind), and a failure ends the run. Where the source changed state before throwing (for example the queue pop and move in `advanceTime`, Drone.kt:32-36), the model keeps those changes. On `Fail`, the simulation's loop promises only that the clock has not moved past the deadline and orders only left.
- The `Algorithm` interface (Algorithm.kt:7-20) is modelled as the `Policy` datatype with one variant per implementation, matched in the simulation.
- The process-wide location counter (Map.kt:9-13) is replaced by explicit location ids. The model gives warehouse `i` id `i` and order `i` id `warehouses + i`, which is the order Model.kt creates them in.
- Reading the input file (Model.kt:16-21) is left out: the model takes the lines already split into integers. `Text.Split`/`Join` model the splitting on spaces.
- Logging, `println` and every `toString` except `Product.toString` and `toCommandString` are left out, including the deadline report of undelivered items (Simulation.kt:42-50) and the final log of the solution (Simulation.kt:52-54). `Payload.toString`'s weight sum is modelled as `ItemsWeight`.
- `main` (Simulation.kt:73-83), which picks the input file and policy, is left out.
- The planner's warehouse choice uses the distance formula directly rather than through the cache. The cache's invariant makes the two equal; the cells it would fill are not tracked.
- Drone.kt:119 `DroneException` and the exception messages are reduced to error kinds.
