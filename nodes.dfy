/**
  The entities of the supply-chain network (scdt/nodes.py): SKUs, locations,
  nodes and their variants, demands and their demand process, production
  records, orders, and the fixed test network.

  The source draws ids from class-level counters (`SKU.next_id`,
  `Node.next_id`, `ProductionLine.next_id`) that each constructor reads and
  increments. Here each counter is an `IdAllocator` object that the
  constructors are given; `IdCounters` holds the three of them.
*/
module Nodes {
  import opened Dates

  // ---------------------------------------------------------------------
  // Id counters
  // ---------------------------------------------------------------------

  /** A class-level `next_id` counter: `next` is the id the next entity gets. */
  class IdAllocator {
    var next: nat

    constructor ()
      ensures next == 0
    {
      next := 0;
    }

    /** Reads the counter and increments it, as every id-drawing constructor does. */
    method Take() returns (id: nat)
      modifies this
      ensures id == old(next)
      ensures next == old(next) + 1
    {
      id := next;
      next := next + 1;
    }
  }

  /**
    The three counters of the source. Every Node variant draws from the one
    `node` counter; `sku` and `line` are separate objects, so drawing from one
    leaves the others unchanged.
  */
  class IdCounters {
    const sku: IdAllocator
    const node: IdAllocator
    const line: IdAllocator

    ghost predicate Valid() {
      sku != node && node != line && sku != line
    }

    constructor ()
      ensures Valid()
      ensures fresh(sku) && fresh(node) && fresh(line)
      ensures sku.next == 0 && node.next == 0 && line.next == 0
    {
      sku := new IdAllocator();
      node := new IdAllocator();
      line := new IdAllocator();
    }
  }

  // ---------------------------------------------------------------------
  // SKUs, locations, nodes
  // ---------------------------------------------------------------------

  datatype SKU = SKU(id: nat, name: string)

  /** `SKU(name)`: takes the next SKU id. */
  method NewSku(ids: IdAllocator, name: string) returns (s: SKU)
    modifies ids
    ensures s.id == old(ids.next) && s.name == name
    ensures ids.next == old(ids.next) + 1
  {
    var id := ids.Take();
    s := SKU(id, name);
  }

  /**
    A location object. The source shares one `Location` object between
    several nodes, so it is a reference; its coordinates never change.
  */
  class Location {
    const lon: real
    const lat: real

    constructor (lon: real, lat: real)
      ensures this.lon == lon && this.lat == lat
    {
      this.lon := lon;
      this.lat := lat;
    }
  }

  /** The fields `Node.__init__` sets. */
  datatype Node = Node(id: nat, name: string, location: Location)

  /** `Supplier`, `Warehouse` and `ProductionSite` add nothing to `Node`. */
  type Supplier = Node
  type Warehouse = Node
  type ProductionSite = Node

  /** `Node.__init__`, which every Node variant runs: takes the next Node id. */
  method NewNode(ids: IdAllocator, name: string, location: Location) returns (n: Node)
    modifies ids
    ensures n == Node(old(ids.next), name, location)
    ensures ids.next == old(ids.next) + 1
  {
    var id := ids.Take();
    n := Node(id, name, location);
  }

  /** A demand node: a Node whose list of demands is appended to after construction. */
  class DemandNode {
    const node: Node
    var demands: seq<Demand>

    constructor (ids: IdAllocator, name: string, location: Location)
      modifies ids
      ensures node == Node(old(ids.next), name, location)
      ensures demands == []
      ensures ids.next == old(ids.next) + 1
    {
      var n := NewNode(ids, name, location);
      node := n;
      demands := [];
    }
  }

  // ---------------------------------------------------------------------
  // Orders
  // ---------------------------------------------------------------------

  datatype OrderPosition = OrderPosition(sku: SKU, quantity: int)

  /** The literal the source stores as every order's date. */
  const PlaceholderOrderDate: int := 1

  /** `Order` and its two subclasses, told apart by their constructor. */
  datatype Order =
    | Order(positions: seq<OrderPosition>, orderDate: int)
    | CustomerOrder(positions: seq<OrderPosition>, orderDate: int, demandNode: DemandNode)
    | PurchaseOrder(positions: seq<OrderPosition>, orderDate: int, supplier: Supplier)

  /** What `Order.__init__` leaves: no positions and the placeholder date. */
  predicate IsBlank(o: Order) {
    o.positions == [] && o.orderDate == PlaceholderOrderDate
  }

  function NewOrder(): (o: Order)
    ensures o.Order? && IsBlank(o)
  {
    Order([], PlaceholderOrderDate)
  }

  function NewCustomerOrder(demandNode: DemandNode): (o: Order)
    ensures o.CustomerOrder? && IsBlank(o) && o.demandNode == demandNode
  {
    CustomerOrder([], PlaceholderOrderDate, demandNode)
  }

  function NewPurchaseOrder(supplier: Supplier): (o: Order)
    ensures o.PurchaseOrder? && IsBlank(o) && o.supplier == supplier
  {
    PurchaseOrder([], PlaceholderOrderDate, supplier)
  }

  // ---------------------------------------------------------------------
  // Demands and the demand process
  // ---------------------------------------------------------------------

  /** The parameters of a `SimpleDemandProcess`. */
  datatype SimpleDemandProcess = SimpleDemandProcess(sku: SKU, interval: nat, quantity: int, lastOrderDate: Date)

  datatype Demand = Demand(
    sku: SKU,
    historicDates: seq<Date>,
    historicQuantities: seq<int>,
    demandProcess: SimpleDemandProcess)

  /** `Demand(sku, demand_process)`: the history starts empty. */
  function NewDemand(sku: SKU, demandProcess: SimpleDemandProcess): (d: Demand)
    ensures d.sku == sku && d.demandProcess == demandProcess
    ensures d.historicDates == [] && d.historicQuantities == []
  {
    Demand(sku, [], [], demandProcess)
  }

  /** When a process next wants to run: at a simulation time, or never again. */
  datatype Wake = WaitUntil(at: int) | Finished

  /** One order the process created, with the simulation time it was created at. */
  datatype Created = Created(at: int, order: Order)

  /**
    The running `SimpleDemandProcess.process` generator, as a resumable state:
    the clock it last saw, when it wakes next, and the orders it has created.
  */
  datatype DemandProcessState = DemandProcessState(now: int, next: Wake, created: seq<Created>)

  /** The generator's first run, at time `now`: it reaches `timeout(interval)` and waits. */
  function Start(p: SimpleDemandProcess, now: int): (s: DemandProcessState)
    ensures s.next.WaitUntil?
  {
    DemandProcessState(now, WaitUntil(now + p.interval), [])
  }

  /**
    One resumption: the timeout fires, so the clock is at the wake time; the
    loop body creates one `Order()` and waits on the next `timeout(interval)`.
  */
  function Resume(p: SimpleDemandProcess, s: DemandProcessState): (r: DemandProcessState)
    requires s.next.WaitUntil?
    ensures r.next.WaitUntil?
    ensures r.now == s.next.at && r.next.at == r.now + p.interval
    ensures |r.created| == |s.created| + 1 && r.created[..|s.created|] == s.created
    ensures r.created[|s.created|] == Created(r.now, NewOrder())
  {
    var t := s.next.at;
    DemandProcessState(t, WaitUntil(t + p.interval), s.created + [Created(t, NewOrder())])
  }

  /** `n` resumptions in a row. */
  function Resumes(p: SimpleDemandProcess, s: DemandProcessState, n: nat): (r: DemandProcessState)
    requires s.next.WaitUntil?
    ensures r.next.WaitUntil?
    decreases n
  {
    if n == 0 then s else Resume(p, Resumes(p, s, n - 1))
  }

  /**
    After starting at `t0` and `n` resumptions, the clock is at
    `t0 + n * interval`, the process waits until `t0 + (n + 1) * interval`
    (it never finishes), and it has created exactly `n` blank orders, the
    `k`-th at `t0 + (k + 1) * interval`.
  */
  lemma {:induction false} AfterResumes(p: SimpleDemandProcess, t0: int, n: nat)
    ensures Resumes(p, Start(p, t0), n).now == t0 + n * p.interval
    ensures Resumes(p, Start(p, t0), n).next == WaitUntil(t0 + (n + 1) * p.interval)
    ensures |Resumes(p, Start(p, t0), n).created| == n
    ensures forall k :: 0 <= k < n ==>
      Resumes(p, Start(p, t0), n).created[k] == Created(t0 + (k + 1) * p.interval, NewOrder())
  {
    if n > 0 {
      AfterResumes(p, t0, n - 1);
      var prev := Resumes(p, Start(p, t0), n - 1);
      assert t0 + n * p.interval + p.interval == t0 + (n + 1) * p.interval;
      assert Resumes(p, Start(p, t0), n) == Resume(p, prev);
    }
  }

  /** With a positive interval, no order is created at the start time: the first comes one interval later. */
  lemma FirstOrderAfterOneInterval(p: SimpleDemandProcess, t0: int, n: nat)
    requires n > 0
    ensures |Resumes(p, Start(p, t0), n).created| == n
    ensures Resumes(p, Start(p, t0), n).created[0].at == t0 + p.interval
    ensures p.interval > 0 ==> forall k :: 0 <= k < n ==> Resumes(p, Start(p, t0), n).created[k].at > t0
  {
    AfterResumes(p, t0, n);
  }

  /**
    The process reads nothing but its interval: the SKU, the quantity and the
    last order date make no difference to any run of it.
  */
  lemma {:induction false} OnlyIntervalMatters(p: SimpleDemandProcess, q: SimpleDemandProcess, s: DemandProcessState, n: nat)
    requires p.interval == q.interval
    requires s.next.WaitUntil?
    ensures Resumes(p, s, n) == Resumes(q, s, n)
  {
    if n > 0 {
      OnlyIntervalMatters(p, q, s, n - 1);
    }
  }

  /**
    The process of the test network (interval 15) started at time 0 has
    created orders at times 15, 30 and 45 after three resumptions, and next
    wakes at 60; nothing happens at time 0.
  */
  lemma TestProcessFirstOrders(p: SimpleDemandProcess)
    requires p.interval == DemandInterval
    ensures var s := Resumes(p, Start(p, 0), 3);
      |s.created| == 3 &&
      s.created[0].at == 15 && s.created[1].at == 30 && s.created[2].at == 45 &&
      s.next == WaitUntil(60)
  {
    AfterResumes(p, 0, 3);
  }

  // ---------------------------------------------------------------------
  // Production
  // ---------------------------------------------------------------------

  datatype ProductionLine = ProductionLine(id: nat, productionSite: ProductionSite)

  datatype Production = Production(
    inputMaterials: seq<SKU>,
    inputQuantities: seq<int>,
    product: SKU,
    batchSize: int,
    setupTime: int,
    processingTimeUnit: int,
    lines: seq<ProductionLine>)

  /** `Production(...)`: no input materials, no input quantities and no lines yet. */
  function NewProduction(product: SKU, batchSize: int, setupTime: int, processingTimeUnit: int): (p: Production)
    ensures p.inputMaterials == [] && p.inputQuantities == [] && p.lines == []
    ensures p.product == product && p.batchSize == batchSize
    ensures p.setupTime == setupTime && p.processingTimeUnit == processingTimeUnit
  {
    Production([], [], product, batchSize, setupTime, processingTimeUnit, [])
  }

  /** `ProductionLine(production_site)`: takes the next production-line id. */
  method NewProductionLine(ids: IdAllocator, site: ProductionSite) returns (l: ProductionLine)
    modifies ids
    ensures l == ProductionLine(old(ids.next), site)
    ensures ids.next == old(ids.next) + 1
  {
    var id := ids.Take();
    l := ProductionLine(id, site);
  }

  // ---------------------------------------------------------------------
  // The network and its test instance
  // ---------------------------------------------------------------------

  datatype Network = Network(
    suppliers: seq<Supplier>,
    warehouses: seq<Warehouse>,
    productionSites: seq<ProductionSite>,
    demandNodes: seq<DemandNode>)

  function NodeListIds(ns: seq<Node>): (ids: seq<nat>)
    ensures |ids| == |ns| && forall k :: 0 <= k < |ns| ==> ids[k] == ns[k].id
  {
    seq(|ns|, k requires 0 <= k < |ns| => ns[k].id)
  }

  function DemandNodeIds(dns: seq<DemandNode>): (ids: seq<nat>)
    ensures |ids| == |dns| && forall k :: 0 <= k < |dns| ==> ids[k] == dns[k].node.id
  {
    seq(|dns|, k requires 0 <= k < |dns| => dns[k].node.id)
  }

  /** The ids of all nodes of a network: suppliers, warehouses, production sites, demand nodes. */
  function NodeIds(net: Network): seq<nat> {
    NodeListIds(net.suppliers) + NodeListIds(net.warehouses)
    + NodeListIds(net.productionSites) + DemandNodeIds(net.demandNodes)
  }

  /** The ids `first`, `first + 1`, ..., `first + n - 1`. */
  function IdRange(first: nat, n: nat): (r: seq<nat>)
    ensures |r| == n && forall k :: 0 <= k < n ==> r[k] == first + k
  {
    seq(n, k requires 0 <= k < n => first + k)
  }

  /** `str(n)` for a natural number. */
  function NatToString(n: nat): (s: string)
    ensures |s| >= 1
    decreases n
  {
    if n < 10 then ["0123456789"[n]] else NatToString(n / 10) + ["0123456789"[n % 10]]
  }

  /** In the test network: the number of SKUs, the grid side, and the demand parameters. */
  const TestSkuCount: nat := 3
  const GridSize: nat := 10
  const DemandInterval: nat := 15
  const DemandQuantity: int := 100

  function SkuName(i: nat): string {
    "SKU_" + NatToString(i)
  }

  /** Demand-node name for grid cell (a, b). */
  function DemandNodeName(a: nat, b: nat): string {
    "DM_" + NatToString(a) + "," + NatToString(b)
  }

  /** `np.linspace(start, stop, num)[k]`, in exact arithmetic. */
  function Linspace(start: real, stop: real, num: nat, k: nat): real
    requires 2 <= num && k < num
  {
    start + (k as real) * (stop - start) / ((num - 1) as real)
  }

  /** The SKUs `get_test_instance` creates when the SKU counter stands at `first`. */
  function TestSkus(first: nat): (skus: seq<SKU>)
    ensures |skus| == TestSkuCount
    ensures forall k :: 0 <= k < TestSkuCount ==> skus[k] == SKU(first + k, SkuName(k))
  {
    seq(TestSkuCount, k requires 0 <= k < TestSkuCount => SKU(first + k, SkuName(k)))
  }

  /**
    The demands the inner loop of `get_test_instance` appends to one demand
    node: one per SKU, in SKU order, each with a fresh process of interval
    15, quantity 100 and last order date `startDate`.
  */
  function TestDemands(skus: seq<SKU>, startDate: Date): (ds: seq<Demand>)
    ensures |ds| == |skus|
    ensures forall k :: 0 <= k < |skus| ==>
      ds[k] == NewDemand(skus[k], SimpleDemandProcess(skus[k], DemandInterval, DemandQuantity, startDate))
  {
    if skus == [] then []
    else
      var sku := skus[|skus| - 1];
      TestDemands(skus[..|skus| - 1], startDate)
      + [NewDemand(sku, SimpleDemandProcess(sku, DemandInterval, DemandQuantity, startDate))]
  }

  /** The list comprehension `[SKU(f"SKU_{i}") for i in range(n)]`. */
  method MakeSkus(ids: IdAllocator, n: nat) returns (skus: seq<SKU>)
    modifies ids
    ensures |skus| == n
    ensures forall k :: 0 <= k < n ==> skus[k] == SKU(old(ids.next) + k, SkuName(k))
    ensures ids.next == old(ids.next) + n
  {
    skus := [];
    for i := 0 to n
      invariant |skus| == i
      invariant forall k :: 0 <= k < i ==> skus[k] == SKU(old(ids.next) + k, SkuName(k))
      invariant ids.next == old(ids.next) + i
    {
      var s := NewSku(ids, SkuName(i));
      skus := skus + [s];
    }
  }

  /** Demand node number `k` of the grid (its id and coordinates), built when the Node counter stood at `first`. */
  ghost predicate GridNode(dn: DemandNode, first: nat, k: nat) {
    var a, b := k / GridSize, k % GridSize;
    a < GridSize &&
    dn.node.id == first + k &&
    dn.node.location.lon == Linspace(1.0, 30.0, GridSize, a) &&
    dn.node.location.lat == Linspace(-90.0, -70.0, GridSize, b)
  }

  /** Row `a` of the grid: the inner comprehension over `np.linspace(-90, -70, 10)`. */
  method MakeGridRow(ids: IdAllocator, first: nat, a: nat) returns (row: seq<DemandNode>)
    requires a < GridSize && ids.next == first + a * GridSize
    modifies ids
    ensures |row| == GridSize
    ensures forall b :: 0 <= b < GridSize ==> GridNode(row[b], first, a * GridSize + b)
    ensures forall b :: 0 <= b < GridSize ==> fresh(row[b]) && row[b].demands == []
    ensures ids.next == old(ids.next) + GridSize
  {
    row := [];
    for b := 0 to GridSize
      invariant |row| == b
      invariant forall c :: 0 <= c < b ==> GridNode(row[c], first, a * GridSize + c)
      invariant forall c :: 0 <= c < b ==> fresh(row[c]) && row[c].demands == []
      invariant ids.next == old(ids.next) + b
    {
      var location := new Location(Linspace(1.0, 30.0, GridSize, a), Linspace(-90.0, -70.0, GridSize, b));
      var dn := new DemandNode(ids, DemandNodeName(a, b), location);
      assert (a * GridSize + b) / GridSize == a && (a * GridSize + b) % GridSize == b;
      row := row + [dn];
    }
  }

  /**
    The nested comprehension over `np.linspace(1, 30, 10)` (outer) and
    `np.linspace(-90, -70, 10)` (inner): 100 distinct new demand nodes in row
    order, with consecutive Node ids.
  */
  method MakeDemandNodes(ids: IdAllocator) returns (dns: seq<DemandNode>)
    modifies ids
    ensures |dns| == GridSize * GridSize
    ensures forall k :: 0 <= k < |dns| ==> GridNode(dns[k], old(ids.next), k)
    ensures forall k :: 0 <= k < |dns| ==> fresh(dns[k]) && dns[k].demands == []
    ensures DemandNodeIds(dns) == IdRange(old(ids.next), GridSize * GridSize)
    ensures forall i, j :: 0 <= i < j < |dns| ==> dns[i] != dns[j]
    ensures ids.next == old(ids.next) + GridSize * GridSize
  {
    var first := ids.next;
    dns := [];
    for a := 0 to GridSize
      invariant |dns| == a * GridSize
      invariant forall k :: 0 <= k < |dns| ==> GridNode(dns[k], first, k)
      invariant forall k :: 0 <= k < |dns| ==> fresh(dns[k]) && dns[k].demands == []
      invariant ids.next == first + |dns|
    {
      var row := MakeGridRow(ids, first, a);
      forall k | a * GridSize <= k < a * GridSize + GridSize
        ensures GridNode((dns + row)[k], first, k)
      {
        assert (dns + row)[k] == row[k - a * GridSize];
      }
      dns := dns + row;
    }
    forall i, j | 0 <= i < j < |dns| ensures dns[i] != dns[j] {
      assert dns[i].node.id == first + i && dns[j].node.id == first + j;
    }
  }

  /** The nested loop that appends to every demand node one demand per SKU. */
  method AttachDemands(dns: seq<DemandNode>, skus: seq<SKU>, startDate: Date)
    requires forall i, j :: 0 <= i < j < |dns| ==> dns[i] != dns[j]
    modifies set k | 0 <= k < |dns| :: dns[k]
    ensures forall k :: 0 <= k < |dns| ==> dns[k].demands == old(dns[k].demands) + TestDemands(skus, startDate)
  {
    for i := 0 to |dns|
      invariant forall k :: 0 <= k < i ==> dns[k].demands == old(dns[k].demands) + TestDemands(skus, startDate)
      invariant forall k :: i <= k < |dns| ==> dns[k].demands == old(dns[k].demands)
    {
      var dn := dns[i];
      for j := 0 to |skus|
        invariant dn.demands == old(dn.demands) + TestDemands(skus[..j], startDate)
        invariant forall k :: 0 <= k < |dns| && k != i ==>
          dns[k].demands == old(dns[k].demands) + (if k < i then TestDemands(skus, startDate) else [])
      {
        var sku := skus[j];
        var process := SimpleDemandProcess(sku, DemandInterval, DemandQuantity, startDate);
        var demand := NewDemand(sku, process);
        assert skus[..j + 1][..j] == skus[..j];
        dn.demands := dn.demands + [demand];
      }
      assert skus[..|skus|] == skus;
    }
  }

  lemma IdRangeSplit(first: nat, a: nat, b: nat)
    ensures IdRange(first, a) + IdRange(first + a, b) == IdRange(first, a + b)
  {
    var joined := IdRange(first, a) + IdRange(first + a, b);
    forall k | 0 <= k < a + b ensures joined[k] == first + k {
      if k >= a {
        assert joined[k] == IdRange(first + a, b)[k - a];
      }
    }
  }

  /**
    The two suppliers, two warehouses and two production sites of the test
    network, drawn from the Node counter in that order; each warehouse shares
    its `Location` object with the production site of the same city.
  */
  method MakeFacilities(ids: IdAllocator) returns (suppliers: seq<Supplier>, warehouses: seq<Warehouse>, sites: seq<ProductionSite>)
    modifies ids
    ensures ids.next == old(ids.next) + 6
    ensures NodeListIds(suppliers) + NodeListIds(warehouses) + NodeListIds(sites) == IdRange(old(ids.next), 6)
    ensures |suppliers| == 2 && |warehouses| == 2 && |sites| == 2
    ensures suppliers[0].name == "SP_A" && suppliers[1].name == "SP_B"
    ensures warehouses[0].name == "WH_MDL" && warehouses[1].name == "WH_BGT"
    ensures sites[0].name == "MFG_MDL" && sites[1].name == "MFG_BGT"
    ensures suppliers[0].location.lon == 19.43 && suppliers[0].location.lat == -99.13
    ensures suppliers[1].location.lon == -25.26 && suppliers[1].location.lat == -57.58
    ensures warehouses[0].location.lon == 6.2 && warehouses[0].location.lat == -75.6
    ensures warehouses[1].location.lon == 4.7 && warehouses[1].location.lat == -74.1
    ensures warehouses[0].location == sites[0].location
    ensures warehouses[1].location == sites[1].location
    ensures warehouses[0].location != warehouses[1].location
  {
    var first := ids.next;
    var locA := new Location(19.43, -99.13);
    var spA := NewNode(ids, "SP_A", locA);
    var locB := new Location(-25.26, -57.58);
    var spB := NewNode(ids, "SP_B", locB);
    var siteMedellin := new Location(6.2, -75.6);
    var siteBogota := new Location(4.7, -74.1);
    var whMdl := NewNode(ids, "WH_MDL", siteMedellin);
    var whBgt := NewNode(ids, "WH_BGT", siteBogota);
    var mfgMdl := NewNode(ids, "MFG_MDL", siteMedellin);
    var mfgBgt := NewNode(ids, "MFG_BGT", siteBogota);
    suppliers, warehouses, sites := [spA, spB], [whMdl, whBgt], [mfgMdl, mfgBgt];
    assert NodeListIds(suppliers) + NodeListIds(warehouses) + NodeListIds(sites)
      == [first, first + 1, first + 2, first + 3, first + 4, first + 5];
  }

  /**
    `Network.get_test_instance(start_date)`: 3 SKUs, 2 suppliers, 2
    warehouses, 2 production sites and 100 demand nodes, drawing Node ids in
    that order; every demand node gets the three test demands.
  */
  method GetTestInstance(counters: IdCounters, startDate: Date) returns (net: Network)
    requires counters.Valid()
    modifies counters.sku, counters.node
    ensures counters.sku.next == old(counters.sku.next) + TestSkuCount
    ensures counters.node.next == old(counters.node.next) + 106
    ensures counters.line.next == old(counters.line.next)
    ensures NodeIds(net) == IdRange(old(counters.node.next), 106)
    ensures |net.suppliers| == 2 && |net.warehouses| == 2 && |net.productionSites| == 2
    ensures |net.demandNodes| == GridSize * GridSize
    ensures net.suppliers[0].name == "SP_A" && net.suppliers[1].name == "SP_B"
    ensures net.warehouses[0].name == "WH_MDL" && net.warehouses[1].name == "WH_BGT"
    ensures net.productionSites[0].name == "MFG_MDL" && net.productionSites[1].name == "MFG_BGT"
    ensures net.warehouses[0].location == net.productionSites[0].location
    ensures net.warehouses[1].location == net.productionSites[1].location
    ensures net.warehouses[0].location != net.warehouses[1].location
    ensures forall k :: 0 <= k < |net.demandNodes| ==> GridNode(net.demandNodes[k], old(counters.node.next) + 6, k)
    ensures forall i, j :: 0 <= i < j < |net.demandNodes| ==> net.demandNodes[i] != net.demandNodes[j]
    ensures forall k :: 0 <= k < |net.demandNodes| ==>
      fresh(net.demandNodes[k]) &&
      net.demandNodes[k].demands == TestDemands(TestSkus(old(counters.sku.next)), startDate)
  {
    var skus := MakeSkus(counters.sku, TestSkuCount);
    assert skus == TestSkus(old(counters.sku.next));
    var first := counters.node.next;
    var suppliers, warehouses, sites := MakeFacilities(counters.node);
    var dns := MakeDemandNodes(counters.node);
    AttachDemands(dns, skus, startDate);
    net := Network(suppliers, warehouses, sites, dns);
    IdRangeSplit(first, 6, 100);
  }
}
