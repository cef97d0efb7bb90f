// Model.kt: the problem instance read from the (already tokenised) input lines —
// products, warehouses with their stock, orders with their per-product counts,
// the distance cache and the drones — and the invariants the rest of the program
// relies on.
module World {
  import opened Results
  import opened Products
  import opened Geometry
  import opened Ledger
  import opened Commands
  import opened Drones

  /** Number of times `id` occurs in `types`. */
  function Occurrences(types: seq<int>, id: int): nat
  {
    if types == [] then 0
    else Occurrences(types[..|types| - 1], id) + (if types[|types| - 1] == id then 1 else 0)
  }

  /** One cell per product, in id order, holding how often the product was ordered. */
  function Tally(types: seq<int>, products: seq<Product>): (r: seq<StoreProduct>)
    ensures |r| == |products|
    ensures forall i :: 0 <= i < |r| ==> r[i] == StoreProduct(products[i], Occurrences(types, i), 0)
  {
    seq(|products|, i requires 0 <= i < |products| => StoreProduct(products[i], Occurrences(types, i), 0))
  }

  /** Kotlin's `filter { it.available > 0 }`. */
  function Positive(cells: seq<StoreProduct>): seq<StoreProduct>
  {
    if cells == [] then []
    else Positive(cells[..|cells| - 1]) + (if cells[|cells| - 1].available > 0 then [cells[|cells| - 1]] else [])
  }

  /** The ledger an order starts with, given its list of ordered product ids. */
  function OrderEntries(types: seq<int>, products: seq<Product>): seq<StoreProduct>
  {
    Positive(Tally(types, products))
  }

  /** The filter keeps exactly the cells with available > 0. */
  lemma {:induction false} PositiveMembers(cells: seq<StoreProduct>, e: StoreProduct)
    ensures e in Positive(cells) <==> e in cells && e.available > 0
  {
    if cells != [] {
      var init := cells[..|cells| - 1];
      PositiveMembers(init, e);
      assert cells == init + [cells[|cells| - 1]];
    }
  }

  /** The filter keeps the cells in their order: increasing ids stay increasing. */
  lemma {:induction false} PositiveIncreasing(cells: seq<StoreProduct>)
    requires forall j, k :: 0 <= j < k < |cells| ==> cells[j].product.id < cells[k].product.id
    ensures var r := Positive(cells);
      forall j, k :: 0 <= j < k < |r| ==> r[j].product.id < r[k].product.id
  {
    if cells != [] {
      var init := cells[..|cells| - 1];
      var last := cells[|cells| - 1];
      PositiveIncreasing(init);
      var p := Positive(init);
      forall j | 0 <= j < |p| ensures p[j].product.id < last.product.id {
        PositiveMembers(init, p[j]);
        var i :| 0 <= i < |init| && init[i] == p[j];
        assert cells[i] == init[i];
      }
      if last.available > 0 {
        assert Positive(cells) == p + [last];
      } else {
        assert Positive(cells) == p;
      }
    }
  }

  /** Model.kt's count collapse: an order has one entry per product ordered at least
      once, in id order; its available count is the number of times the product
      was listed and nothing is reserved; every product ordered gets an entry. */
  lemma OrderEntriesExact(types: seq<int>, products: seq<Product>)
    requires WellFormedCatalog(products)
    ensures var r := OrderEntries(types, products);
      && (forall j :: 0 <= j < |r| ==>
            && Catalogued(r[j].product, products)
            && r[j].available == Occurrences(types, r[j].product.id) > 0
            && r[j].reserved == 0)
      && (forall j, k :: 0 <= j < k < |r| ==> r[j].product.id < r[k].product.id)
      && (forall id :: 0 <= id < |products| && Occurrences(types, id) > 0 ==>
            exists j :: 0 <= j < |r| && r[j].product.id == id)
  {
    var t := Tally(types, products);
    var r := OrderEntries(types, products);
    PositiveIncreasing(t);
    forall j | 0 <= j < |r|
      ensures Catalogued(r[j].product, products)
      ensures r[j].available == Occurrences(types, r[j].product.id) > 0 && r[j].reserved == 0
    {
      PositiveMembers(t, r[j]);
    }
    forall id | 0 <= id < |products| && Occurrences(types, id) > 0
      ensures exists j :: 0 <= j < |r| && r[j].product.id == id
    {
      PositiveMembers(t, t[id]);
      var j :| 0 <= j < |r| && r[j] == t[id];
    }
  }

  /** A warehouse ledger: one entry per catalogue product, in id order, no negative count. */
  predicate WarehouseStock(items: seq<StoreProduct>, catalog: seq<Product>)
  {
    && |items| == |catalog|
    && (forall j :: 0 <= j < |items| ==> items[j].product == catalog[j])
    && NonNegative(items)
  }

  /** An order ledger: catalogued products, one entry each, no negative count. */
  predicate OrderLedger(items: seq<StoreProduct>, catalog: seq<Product>)
  {
    && DistinctIds(items)
    && NonNegative(items)
    && forall j :: 0 <= j < |items| ==> Catalogued(items[j].product, catalog)
  }

  /** Input layout: line 0 the parameters, 1 the product count, 2 the weights,
      3 the warehouse count, then two lines per warehouse, then the order count,
      then three lines per order. */
  function OrderBase(warehouseCount: int): int { 5 + 2 * warehouseCount }

  predicate AllNonNegative(s: seq<int>) { forall j :: 0 <= j < |s| ==> s[j] >= 0 }

  predicate AllBelow(s: seq<int>, n: int) { forall j :: 0 <= j < |s| ==> 0 <= s[j] < n }

  ghost predicate WarehouseLinesOk(lines: seq<seq<int>>, productCount: int, i: int)
  {
    && 0 <= i && 5 + 2 * i < |lines|
    && |lines[4 + 2 * i]| >= 2
    && |lines[5 + 2 * i]| == productCount
    && AllNonNegative(lines[5 + 2 * i])
  }

  ghost predicate OrderLinesOk(lines: seq<seq<int>>, productCount: int, warehouseCount: int, i: int)
  {
    var b := OrderBase(warehouseCount) + 3 * i;
    && 0 <= i && 0 <= b && b + 2 < |lines|
    && |lines[b]| >= 2
    && |lines[b + 1]| == 1
    && AllBelow(lines[b + 2], productCount)
  }

  /** The input the reading code can take without an index or number error, with
      positive weights and non-negative counts and stock as the problem guarantees. */
  ghost predicate WellFormedInput(lines: seq<seq<int>>)
  {
    && |lines| >= 4
    && |lines[0]| >= 5 && lines[0][2] >= 0 && lines[0][4] >= 0
    && |lines[1]| == 1 && lines[1][0] >= 0
    && |lines[2]| >= lines[1][0]
    && (forall i :: 0 <= i < lines[1][0] ==> lines[2][i] > 0)
    && |lines[3]| == 1 && lines[3][0] >= 0
    && (forall i :: 0 <= i < lines[3][0] ==> WarehouseLinesOk(lines, lines[1][0], i))
    && 4 + 2 * lines[3][0] < |lines| && |lines[4 + 2 * lines[3][0]]| == 1
    && lines[4 + 2 * lines[3][0]][0] >= 0
    && (forall i :: 0 <= i < lines[4 + 2 * lines[3][0]][0] ==> OrderLinesOk(lines, lines[1][0], lines[3][0], i))
    && (lines[0][2] > 0 ==> lines[3][0] > 0)
  }

  /** The ledger a warehouse starts with: entry j holds stock[j] units of product j. */
  function StockEntries(stock: seq<int>, products: seq<Product>): (r: seq<StoreProduct>)
    requires |stock| <= |products|
    ensures |r| == |stock|
    ensures forall j :: 0 <= j < |r| ==> r[j] == StoreProduct(products[j], stock[j], 0)
  {
    seq(|stock|, j requires 0 <= j < |stock| => StoreProduct(products[j], stock[j], 0))
  }

  /** A full, non-negative stock line gives a warehouse ledger with every product
      in id order. */
  lemma StockEntriesStock(stock: seq<int>, products: seq<Product>)
    requires |stock| == |products| && AllNonNegative(stock)
    ensures WarehouseStock(StockEntries(stock, products), products)
  {
  }

  /** The order ledger built from a valid order line is well formed. */
  lemma OrderEntriesLedger(types: seq<int>, products: seq<Product>)
    requires WellFormedCatalog(products)
    ensures OrderLedger(OrderEntries(types, products), products)
  {
    OrderEntriesExact(types, products);
  }

  /** The forEachIndexed loop over a warehouse's stock line. */
  method StockLedger(stock: seq<int>, products: seq<Product>) returns (items: seq<StoreProduct>)
    requires |stock| <= |products|
    ensures items == StockEntries(stock, products)
  {
    items := [];
    var j := 0;
    while j < |stock|
      invariant j <= |stock| && |items| == j
      invariant forall k :: 0 <= k < j ==> items[k] == StoreProduct(products[k], stock[k], 0)
    {
      items := items + [StoreProduct(products[j], stock[j], 0)];
      j := j + 1;
    }
  }

  /** Model.kt's order-line collapse: a cell per product, one increment per listed
      id, then the cells with a positive count. */
  method CollapseOrderItems(types: seq<int>, products: seq<Product>) returns (items: seq<StoreProduct>)
    requires AllBelow(types, |products|)
    ensures items == OrderEntries(types, products)
  {
    var n := |products|;
    var cells := new StoreProduct[n](i requires 0 <= i < n => StoreProduct(products[i], 0, 0));
    var k := 0;
    while k < |types|
      invariant k <= |types|
      invariant forall i :: 0 <= i < n ==> cells[i] == StoreProduct(products[i], Occurrences(types[..k], i), 0)
    {
      var id := types[k];
      assert types[..k + 1][..k] == types[..k];
      cells[id] := cells[id].(available := cells[id].available + 1);
      k := k + 1;
    }
    assert types[..k] == types;
    assert cells[..] == Tally(types, products);
    items := [];
    var i := 0;
    while i < n
      invariant i <= n
      invariant items == Positive(cells[..i])
    {
      assert cells[..i + 1][..i] == cells[..i];
      if cells[i].available > 0 {
        items := items + [cells[i]];
      }
      i := i + 1;
    }
    assert cells[..n] == cells[..];
  }

  /** Reads the warehouses: two lines each, from the cursor at line 4; warehouse i
      gets id i and location id i. */
  method ReadWarehouses(lines: seq<seq<int>>, catalog: seq<Product>) returns (ws: seq<Store>)
    requires WellFormedInput(lines) && |catalog| == lines[1][0]
    ensures |ws| == lines[3][0]
    ensures forall i :: 0 <= i < |ws| ==>
      && WarehouseLinesOk(lines, lines[1][0], i)
      && ws[i].id == i
      && ws[i].loc == Location(lines[4 + 2 * i][0], lines[4 + 2 * i][1], i)
      && ws[i].items == StockEntries(lines[5 + 2 * i], catalog)
  {
    var numberOfWarehouses := lines[3][0];
    var lineIndex := 4;
    var locationIds := 0;
    ws := [];
    while |ws| < numberOfWarehouses
      invariant |ws| <= numberOfWarehouses && lineIndex == 4 + 2 * |ws| && locationIds == |ws|
      invariant forall i :: 0 <= i < |ws| ==>
        && WarehouseLinesOk(lines, lines[1][0], i)
        && ws[i].id == i
        && ws[i].loc == Location(lines[4 + 2 * i][0], lines[4 + 2 * i][1], i)
        && ws[i].items == StockEntries(lines[5 + 2 * i], catalog)
    {
      assert WarehouseLinesOk(lines, lines[1][0], |ws|);
      var coordinates := lines[lineIndex];
      lineIndex := lineIndex + 1;
      var stock := lines[lineIndex];
      lineIndex := lineIndex + 1;
      var items := StockLedger(stock, catalog);
      var located := NewLocation(locationIds, coordinates[0], coordinates[1]);
      var w := new Store(|ws|, located.0, items);
      ws := ws + [w];
      locationIds := located.1;
    }
  }

  /** Reads the orders: three lines each, from the cursor after the order count;
      the declared number of ordered items is read and ignored. Order i gets id i
      and location id warehouseCount + i. */
  method ReadOrders(lines: seq<seq<int>>, catalog: seq<Product>) returns (os: seq<Store>)
    requires WellFormedInput(lines) && |catalog| == lines[1][0]
    ensures var w := lines[3][0]; |os| == lines[4 + 2 * w][0]
    ensures forall i :: 0 <= i < |os| ==>
      var b := OrderBase(lines[3][0]) + 3 * i;
      && OrderLinesOk(lines, lines[1][0], lines[3][0], i)
      && os[i].id == i
      && os[i].loc == Location(lines[b][0], lines[b][1], lines[3][0] + i)
      && os[i].items == OrderEntries(lines[b + 2], catalog)
  {
    var w := lines[3][0];
    var numberOfCustomerOrders := lines[4 + 2 * w][0];
    var lineIndex := OrderBase(w);
    var locationIds := w;
    os := [];
    while |os| < numberOfCustomerOrders
      invariant |os| <= numberOfCustomerOrders
      invariant lineIndex == OrderBase(w) + 3 * |os| && locationIds == w + |os|
      invariant forall i :: 0 <= i < |os| ==>
        var b := OrderBase(w) + 3 * i;
        && OrderLinesOk(lines, lines[1][0], lines[3][0], i)
        && os[i].id == i
        && os[i].loc == Location(lines[b][0], lines[b][1], w + i)
        && os[i].items == OrderEntries(lines[b + 2], catalog)
    {
      assert OrderLinesOk(lines, lines[1][0], w, |os|);
      var coordinates := lines[lineIndex];
      lineIndex := lineIndex + 1;
      var _ := lines[lineIndex][0];
      lineIndex := lineIndex + 1;
      var orderProductTypes := lines[lineIndex];
      lineIndex := lineIndex + 1;
      var items := CollapseOrderItems(orderProductTypes, catalog);
      var located := NewLocation(locationIds, coordinates[0], coordinates[1]);
      var o := new Store(|os|, located.0, items);
      os := os + [o];
      locationIds := located.1;
    }
  }

  /** Drone i has id i, starts at the first warehouse and carries up to `capacity`. */
  method MakeDrones(count: int, start: Location, distanceMap: DistanceMap, capacity: int, ghost catalog: seq<Product>)
    returns (ds: seq<Drone>)
    requires capacity >= 0 && WellFormedCatalog(catalog)
    ensures |ds| == if count < 0 then 0 else count
    ensures forall i :: 0 <= i < |ds| ==>
      && ds[i].id == i && ds[i].location == start && ds[i].distanceMap == distanceMap
      && ds[i].capacity == capacity && ds[i].catalog == catalog
      && ds[i].Valid() && ds[i].commandQueue == [] && ds[i].payload == []
  {
    ds := [];
    while |ds| < count
      invariant |ds| <= if count < 0 then 0 else count
      invariant forall i :: 0 <= i < |ds| ==>
        && ds[i].id == i && ds[i].location == start && ds[i].distanceMap == distanceMap
        && ds[i].capacity == capacity && ds[i].catalog == catalog
        && ds[i].Valid() && ds[i].commandQueue == [] && ds[i].payload == []
    {
      var d := new Drone(|ds|, start, distanceMap, capacity, catalog);
      ds := ds + [d];
    }
  }

  /** The ledgers read from well-formed input are well formed. */
  lemma InputStocked(lines: seq<seq<int>>, ws: seq<Store>, os: seq<Store>, catalog: seq<Product>)
    requires WellFormedInput(lines) && |catalog| == lines[1][0] && WellFormedCatalog(catalog)
    requires |ws| == lines[3][0]
    requires forall i :: 0 <= i < |ws| ==>
      WarehouseLinesOk(lines, lines[1][0], i) && ws[i].items == StockEntries(lines[5 + 2 * i], catalog)
    requires forall i :: 0 <= i < |os| ==>
      OrderLinesOk(lines, lines[1][0], lines[3][0], i)
      && os[i].items == OrderEntries(lines[OrderBase(lines[3][0]) + 3 * i + 2], catalog)
    ensures forall i :: 0 <= i < |ws| ==> WarehouseStock(ws[i].items, catalog)
    ensures forall i :: 0 <= i < |os| ==> OrderLedger(os[i].items, catalog)
  {
    forall i | 0 <= i < |ws| ensures WarehouseStock(ws[i].items, catalog) {
      assert WarehouseLinesOk(lines, lines[1][0], i);
      StockEntriesStock(lines[5 + 2 * i], catalog);
    }
    forall i | 0 <= i < |os| ensures OrderLedger(os[i].items, catalog) {
      assert OrderLinesOk(lines, lines[1][0], lines[3][0], i);
      OrderEntriesLedger(lines[OrderBase(lines[3][0]) + 3 * i + 2], catalog);
    }
  }

  /** Map(totalNumberOfLocationObjects): a cache sized to the locations created,
      warehouses first, then orders, knowing each of them under its id. */
  method NewDistanceMap(ws: seq<Store>, os: seq<Store>) returns (dm: DistanceMap)
    requires forall i :: 0 <= i < |ws| ==> ws[i].loc.id == i
    requires forall i :: 0 <= i < |os| ==> os[i].loc.id == |ws| + i
    ensures fresh(dm) && fresh(dm.cells) && dm.Valid()
    ensures dm.cells.Length0 == |ws| + |os| == dm.cells.Length1
    ensures forall i :: 0 <= i < |ws| ==> dm.Knows(ws[i].loc)
    ensures forall i :: 0 <= i < |os| ==> dm.Knows(os[i].loc)
  {
    ghost var sites := seq(|ws|, i requires 0 <= i < |ws| => ws[i].loc)
                     + seq(|os|, i requires 0 <= i < |os| => os[i].loc);
    dm := new DistanceMap(|ws| + |os|, sites);
  }

  /** Kotlin's `listOf(a, b, c).min()`. */
  function Min3(a: int, b: int, c: int): (m: int)
    ensures m <= a && m <= b && m <= c
    ensures m == a || m == b || m == c
  {
    if a <= b && a <= c then a else if b <= c then b else c
  }

  /** The available count of product `id` in a ledger, as Store.getProduct finds it. */
  function StockOf(items: seq<StoreProduct>, id: int): int
  {
    match FindProduct(items, id)
    case None => 0
    case Some(k) => items[k].available
  }

  /** Each ledger's available count of product `id`. */
  function Availability(ledgers: seq<seq<StoreProduct>>, id: int): (r: seq<int>)
    ensures |r| == |ledgers| && forall j :: 0 <= j < |ledgers| ==> r[j] == StockOf(ledgers[j], id)
  {
    seq(|ledgers|, j requires 0 <= j < |ledgers| => StockOf(ledgers[j], id))
  }

  /** The ledgers of a list of stores, in list order. */
  function Ledgers(stores: seq<Store>): (r: seq<seq<StoreProduct>>)
    reads stores
    ensures |r| == |stores| && forall j :: 0 <= j < |stores| ==> r[j] == stores[j].items
  {
    if stores == [] then [] else Ledgers(stores[..|stores| - 1]) + [stores[|stores| - 1].items]
  }

  /** Each store of a list of distinct stores takes its ledger from `ws`. */
  method WriteBack(warehouses: seq<Store>, ws: seq<seq<StoreProduct>>)
    requires |ws| == |warehouses| && forall i, j :: 0 <= i < j < |warehouses| ==> warehouses[i] != warehouses[j]
    modifies warehouses
    ensures Ledgers(warehouses) == ws
  {
    var j := 0;
    while j < |warehouses|
      invariant 0 <= j <= |warehouses|
      invariant forall m :: 0 <= m < j ==> warehouses[m].items == ws[m]
    {
      warehouses[j].items := ws[j];
      j := j + 1;
    }
  }

  /** A warehouse ledger holds a catalogued product at the position of its id. */
  lemma FindInStock(items: seq<StoreProduct>, catalog: seq<Product>, p: Product)
    requires WellFormedCatalog(catalog) && WarehouseStock(items, catalog) && Catalogued(p, catalog)
    ensures FindProduct(items, p.id) == Some(p.id) && items[p.id].product == p
  {
    assert items[p.id].product.id == p.id;
  }

  /** Moving units of one entry from available to reserved keeps a warehouse ledger one. */
  lemma AdjustKeepsStock(items: seq<StoreProduct>, catalog: seq<Product>, id: nat, t: int)
    requires WarehouseStock(items, catalog) && id < |items| && 0 <= t <= items[id].available
    ensures WarehouseStock(Adjust(items, id, -t, t), catalog)
  {
  }

  /** Moving units of one entry from available to reserved keeps an order ledger one. */
  lemma AdjustKeepsLedger(items: seq<StoreProduct>, catalog: seq<Product>, k: nat, t: int)
    requires OrderLedger(items, catalog) && k < |items| && 0 <= t <= items[k].available
    ensures OrderLedger(Adjust(items, k, -t, t), catalog)
  {
    DistinctSameProducts(items, Adjust(items, k, -t, t));
  }

  /** Sites are not shared: an order of the model is never one of its warehouses
      (their location ids lie in different ranges). */
  lemma OrderIsNoWarehouse(m: Model, o: Store)
    requires m.Shape() && o in m.allOrders
    ensures o !in m.warehouses
  {
    var j :| 0 <= j < |m.allOrders| && m.allOrders[j] == o;
    assert o.loc.id == |m.warehouses| + j;
    forall i | 0 <= i < |m.warehouses| ensures m.warehouses[i] != o {
      assert m.warehouses[i].loc.id == i;
    }
  }

  /** Model.kt's Model: the problem instance. `allOrders` keeps every order by id
      (commands name their order by id); `orders` is the list of orders not yet
      completed, from which the simulation removes. */
  class Model {
    const deadline: int
    const maxDroneLoad: int
    const products: seq<Product>
    const drones: seq<Drone>
    const warehouses: seq<Store>
    const allOrders: seq<Store>
    var orders: seq<Store>
    const distanceMap: DistanceMap

    /** Ids are positions; location ids number the warehouses, then the orders;
        the distance cache knows every site; drones share the cache, the
        capacity and the catalogue. */
    ghost predicate Shape()
    {
      && WellFormedCatalog(products)
      && maxDroneLoad >= 0
      && (forall i :: 0 <= i < |warehouses| ==>
            warehouses[i].id == i && warehouses[i].loc.id == i && distanceMap.Knows(warehouses[i].loc))
      && (forall i :: 0 <= i < |allOrders| ==>
            && allOrders[i].id == i && allOrders[i].loc.id == |warehouses| + i
            && distanceMap.Knows(allOrders[i].loc))
      && (forall i :: 0 <= i < |drones| ==>
            && drones[i].id == i && drones[i].distanceMap == distanceMap
            && drones[i].capacity == maxDroneLoad && drones[i].catalog == products)
    }

    /** Every warehouse holds every product in id order; every order ledger is well formed. */
    ghost predicate Stocked()
      reads warehouses, allOrders
    {
      && (forall i :: 0 <= i < |warehouses| ==> WarehouseStock(warehouses[i].items, products))
      && (forall i :: 0 <= i < |allOrders| ==> OrderLedger(allOrders[i].items, products))
    }

    /** The pending orders are distinct orders of the model. */
    ghost predicate Pending()
      reads this
    {
      && (forall i :: 0 <= i < |orders| ==> orders[i] in allOrders)
      && (forall i, j :: 0 <= i < j < |orders| ==> orders[i] != orders[j])
    }

    ghost predicate DronesReady()
      reads drones, distanceMap, distanceMap.cells
    {
      forall i :: 0 <= i < |drones| ==>
        && drones[i].distanceMap == distanceMap
        && drones[i].Valid() && drones[i].Addressed(warehouses, allOrders)
    }

    ghost predicate Valid()
      reads this, drones, warehouses, allOrders, distanceMap, distanceMap.cells
    {
      Shape() && Stocked() && Pending() && DronesReady()
    }

    /** Model.init over tokenised lines. */
    constructor (lines: seq<seq<int>>)
      requires WellFormedInput(lines)
      ensures Valid()
      ensures deadline == lines[0][3] && maxDroneLoad == lines[0][4] && |drones| == lines[0][2]
      ensures |products| == lines[1][0]
      ensures forall i :: 0 <= i < |products| ==> products[i] == Product(i, lines[2][i])
      ensures |warehouses| == lines[3][0]
      ensures forall i :: 0 <= i < |warehouses| ==>
        && WarehouseLinesOk(lines, lines[1][0], i)
        && warehouses[i].loc.row == lines[4 + 2 * i][0] && warehouses[i].loc.column == lines[4 + 2 * i][1]
        && warehouses[i].items == StockEntries(lines[5 + 2 * i], products)
      ensures |allOrders| == lines[4 + 2 * |warehouses|][0] && orders == allOrders
      ensures forall i :: 0 <= i < |allOrders| ==>
        var b := OrderBase(|warehouses|) + 3 * i;
        && OrderLinesOk(lines, lines[1][0], lines[3][0], i)
        && allOrders[i].loc.row == lines[b][0] && allOrders[i].loc.column == lines[b][1]
        && allOrders[i].items == OrderEntries(lines[b + 2], products)
      ensures distanceMap.cells.Length0 == |warehouses| + |allOrders| == distanceMap.cells.Length1
      ensures forall i :: 0 <= i < |drones| ==>
        drones[i].location == warehouses[0].loc && drones[i].commandQueue == [] && drones[i].payload == []
    {
      var parameters := lines[0];
      var numberOfDrones := parameters[2];
      var productTypes := lines[1][0];
      var productWeights := lines[2];
      var catalog := seq(productTypes, i requires 0 <= i < productTypes => Product(i, productWeights[i]));
      var ws := ReadWarehouses(lines, catalog);
      var os := ReadOrders(lines, catalog);
      var dm := NewDistanceMap(ws, os);
      var start := if numberOfDrones > 0 then ws[0].loc else Location(0, 0, 0);
      var ds := MakeDrones(numberOfDrones, start, dm, parameters[4], catalog);
      deadline := parameters[3];
      maxDroneLoad := parameters[4];
      products := catalog;
      warehouses := ws;
      allOrders := os;
      orders := os;
      distanceMap := dm;
      drones := ds;
      new;
      InputStocked(lines, ws, os, catalog);
      assert Shape();
      forall i | 0 <= i < |ds| ensures ds[i].Addressed(ws, os) {
        assert dm.Knows(ds[i].location);
      }
    }
  }
}
