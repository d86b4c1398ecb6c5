/**
  The simulation environment (scdt/sim.py): the mapping between calendar
  dates and simulation time, the current date, and the registration of one
  demand process per demand with the simulation engine.

  The engine itself (a simpy `Environment`) is represented by its clock
  `now` and by `queue`, the processes registered with it in registration
  order.
*/
module Sim {
  import opened Dates
  import opened Nodes

  /** A date, or the `OverflowError` Python raises for a date outside `date.min .. date.max`. */
  datatype DateResult = Ok(date: Date) | OverflowError

  /** `date_to_simtime`: the number of days from `startDate` to `d`; no date is rejected. */
  function DateToSimtime(startDate: Date, d: Date): (t: int)
    ensures SimtimeToDate(startDate, t) == Ok(d)
    ensures t == 0 <==> d == startDate
    ensures t < 0 <==> d < startDate
  {
    d - startDate
  }

  /** `simtime_to_date`: the date `t` days after `startDate`, if there is one. */
  function SimtimeToDate(startDate: Date, t: int): (r: DateResult)
    ensures r.Ok? <==> IsOrdinal(startDate + t)
    ensures r.Ok? ==> r.date - startDate == t
  {
    if IsOrdinal(startDate + t) then Ok(startDate + t) else OverflowError
  }

  /** Every simulation time that names a date maps back to itself. */
  lemma SimtimeRoundTrip(startDate: Date, t: int)
    requires SimtimeToDate(startDate, t).Ok?
    ensures DateToSimtime(startDate, SimtimeToDate(startDate, t).date) == t
  {
  }

  /** `date_to_simtime` preserves and reflects the order of dates. */
  lemma DateToSimtimeMonotone(startDate: Date, d1: Date, d2: Date)
    ensures d1 <= d2 <==> DateToSimtime(startDate, d1) <= DateToSimtime(startDate, d2)
  {
  }

  /** The demand processes of a list of demands, in list order. */
  function DemandProcesses(ds: seq<Demand>): (ps: seq<SimpleDemandProcess>)
    ensures |ps| == |ds|
    ensures forall k :: 0 <= k < |ds| ==> ps[k] == ds[k].demandProcess
  {
    seq(|ds|, k requires 0 <= k < |ds| => ds[k].demandProcess)
  }

  /** What `init` registers: the processes of every demand of every node, node by node. */
  function Registrations(nodes: seq<DemandNode>): seq<SimpleDemandProcess>
    reads set k | 0 <= k < |nodes| :: nodes[k]
  {
    if nodes == [] then []
    else Registrations(nodes[..|nodes| - 1]) + DemandProcesses(nodes[|nodes| - 1].demands)
  }

  /** `sum(len(dn.demands) for dn in nodes)`. */
  function TotalDemands(nodes: seq<DemandNode>): nat
    reads set k | 0 <= k < |nodes| :: nodes[k]
  {
    if nodes == [] then 0
    else TotalDemands(nodes[..|nodes| - 1]) + |nodes[|nodes| - 1].demands|
  }

  /** Exactly one process is registered per demand. */
  lemma {:induction false} RegistrationCount(nodes: seq<DemandNode>)
    ensures |Registrations(nodes)| == TotalDemands(nodes)
  {
    if nodes != [] {
      RegistrationCount(nodes[..|nodes| - 1]);
    }
  }

  /**
    Registration follows node order, then demand order: demand `j` of node `i`
    is registered right after the demands of the nodes before `i` and the
    first `j` demands of node `i`.
  */
  lemma {:induction false} RegistrationOf(nodes: seq<DemandNode>, i: nat, j: nat)
    requires i < |nodes| && j < |nodes[i].demands|
    ensures |Registrations(nodes[..i])| + j < |Registrations(nodes)|
    ensures Registrations(nodes)[|Registrations(nodes[..i])| + j] == nodes[i].demands[j].demandProcess
  {
    var n := |nodes|;
    var init := nodes[..n - 1];
    assert Registrations(nodes) == Registrations(init) + DemandProcesses(nodes[n - 1].demands);
    if i < n - 1 {
      RegistrationOf(init, i, j);
      assert init[..i] == nodes[..i];
    } else {
      assert nodes[..i] == init;
    }
  }

  /** When every node has `m` demands, demand `j` of node `i` is registered `i * m + j`-th. */
  lemma RegistrationAt(nodes: seq<DemandNode>, m: nat, i: nat, j: nat)
    requires forall k :: 0 <= k < |nodes| ==> |nodes[k].demands| == m
    requires i < |nodes| && j < m
    ensures |Registrations(nodes)| == |nodes| * m
    ensures i * m + j < |Registrations(nodes)|
    ensures Registrations(nodes)[i * m + j] == nodes[i].demands[j].demandProcess
  {
    var before := nodes[..i];
    assert |before| == i;
    UniformRegistrationCount(nodes, m);
    UniformRegistrationCount(before, m);
    RegistrationOf(nodes, i, j);
    assert |Registrations(before)| == i * m;
  }

  /** When every node has `m` demands, `|nodes| * m` processes are registered. */
  lemma {:induction false} UniformRegistrationCount(nodes: seq<DemandNode>, m: nat)
    requires forall k :: 0 <= k < |nodes| ==> |nodes[k].demands| == m
    ensures |Registrations(nodes)| == |nodes| * m
  {
    if nodes != [] {
      UniformRegistrationCount(nodes[..|nodes| - 1], m);
      assert (|nodes| - 1) * m + m == |nodes| * m;
    }
  }

  /** `Env`: the simulation session over one network. */
  class Env {
    const startDate: Date
    const network: Network
    const log: bool
    const out: bool
    /** The engine's clock, `env.now`. */
    var now: nat
    /** The processes registered with the engine, in registration order. */
    var queue: seq<SimpleDemandProcess>

    /** A fresh engine: clock at 0, nothing registered. */
    constructor (startDate: Date, network: Network, log: bool, out: bool)
      ensures this.startDate == startDate && this.network == network
      ensures this.log == log && this.out == out
      ensures now == 0 && queue == []
      ensures CurrentDate() == Ok(startDate)
    {
      this.startDate := startDate;
      this.network := network;
      this.log := log;
      this.out := out;
      now := 0;
      queue := [];
    }

    /** `current_date`: the date `now` days after the start date. */
    function CurrentDate(): (r: DateResult)
      reads this
      ensures r.Ok? <==> IsOrdinal(startDate + now)
      ensures r.Ok? ==> DateToSimtime(startDate, r.date) == now
    {
      SimtimeToDate(startDate, now)
    }

    /** `init`: registers the process of every demand of every demand node, in order. */
    method Init()
      modifies this
      ensures queue == old(queue) + Registrations(network.demandNodes)
      ensures now == old(now)
    {
      var nodes := network.demandNodes;
      for i := 0 to |nodes|
        invariant queue == old(queue) + Registrations(nodes[..i])
        invariant now == old(now)
      {
        var dn := nodes[i];
        ghost var before := queue;
        ghost var added := DemandProcesses(dn.demands);
        for j := 0 to |dn.demands|
          invariant queue == before + added[..j]
          invariant now == old(now)
        {
          assert added[..j + 1] == added[..j] + [dn.demands[j].demandProcess];
          queue := queue + [dn.demands[j].demandProcess];
        }
        assert added[..|dn.demands|] == added;
        assert nodes[..i + 1][..i] == nodes[..i];
      }
      assert nodes[..|nodes|] == nodes;
    }
  }

  /**
    The test network registers 300 processes, and the process registered
    `3 * i + j`-th is demand node `i`'s process for SKU `j`: interval 15,
    quantity 100, last order date the start date.
  */
  lemma TestNetworkRegistrations(nodes: seq<DemandNode>, skuFirst: nat, startDate: Date, i: nat, j: nat)
    requires |nodes| == GridSize * GridSize
    requires forall k :: 0 <= k < |nodes| ==> nodes[k].demands == TestDemands(TestSkus(skuFirst), startDate)
    requires i < |nodes| && j < TestSkuCount
    ensures |Registrations(nodes)| == 300
    ensures Registrations(nodes)[3 * i + j] ==
      SimpleDemandProcess(SKU(skuFirst + j, SkuName(j)), DemandInterval, DemandQuantity, startDate)
  {
    RegistrationAt(nodes, TestSkuCount, i, j);
  }

  /**
    Building the test network, an `Env` over it and calling `init`: 300
    processes are registered and the clock is still at the start date.
  */
  method SetUpTestSimulation(counters: IdCounters, startDate: Date) returns (env: Env)
    requires counters.Valid()
    modifies counters.sku, counters.node
    ensures fresh(env)
    ensures |env.queue| == 300
    ensures env.CurrentDate() == Ok(startDate)
  {
    var network := Nodes.GetTestInstance(counters, startDate);
    env := new Env(startDate, network, true, true);
    env.Init();
    RegistrationCount(network.demandNodes);
    if network.demandNodes != [] {
      TestNetworkRegistrations(network.demandNodes, old(counters.sku.next), startDate, 0, 0);
    }
  }
}
