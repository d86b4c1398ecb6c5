# Supply-chain digital twin: entities, demand process and simulation set-up

This project models, in Dafny, the core of a small supply-chain simulation
built on simpy:

- **Entities and id allocation** (`scdt/nodes.py`). SKUs, nodes and
  production lines take their ids from class-level counters. Every Node
  variant (supplier, warehouse, production site, demand node) shares the one
  Node counter. Each counter is an `IdAllocator` object with a `next` field,
  and `IdCounters` holds the three of them. `Take` returns the old value and
  increments it. The plain records (`OrderPosition`, `Order` and its two
  subclasses, `Demand`, `Production`, `Network`) are datatypes. `Location`
  and `DemandNode` are classes: a `Location` object is shared between nodes,
  and a `DemandNode`'s list of demands is appended to after construction.
  `Network.get_test_instance` is `GetTestInstance`, built from one helper
  method per list it creates.
- **The demand process** (`SimpleDemandProcess.process`, a `while True`
  generator). It becomes a resumable state (`DemandProcessState`): the clock
  it last saw, when it wakes next (`WaitUntil(t)` or `Finished`), and the
  orders it created, each with the time it was created. `Start` is the
  generator's first run up to `timeout(interval)`. `Resume` is one turn of the
  loop. `Resumes` is `n` turns. The only simpy fact used is that
  `timeout(d)` resumes the process at `now + d`.
- **The environment** (`scdt/sim.py`). Dates are day ordinals, as Python's
  `date.toordinal()` gives them (module `Dates`). `date_to_simtime` and
  `simtime_to_date` are integer offsets from the start date.
  `simtime_to_date` raises `OverflowError` when the result would fall outside
  `date.min .. date.max`, and the model returns `OverflowError` there. The
  simpy environment is represented by its clock `now` and by `queue`, the
  processes registered with it, in order. `Init` appends one process per
  demand of every demand node.

The process resumption takes only the `SimpleDemandProcess`, never the
`Demand` that owns it. So no run of the process can change a demand's
history, which `NewDemand` creates empty and nothing in the model appends to.

Where the design description of this system and the code disagree, the
model follows the code:

- In the description, converting a date before the start date fails. In the
  code, `date_to_simtime` returns a negative number.
- In the description, each resumption checks the last-order cutoff, creates
  an order with one position, dated at the current time, and records it in
  the demand's history. In the code, the process creates a blank `Order()`
  whose date is the literal `1`. It ignores `last_order_date`, never stops,
  and never touches the history.
- In the description's example scenario, the first order is created at time
  0. In the code, the first order comes one interval after the start
  (`TestProcessFirstOrders`).

## Model

| member | source | states |
|---|---|---|
| `Nodes.IdAllocator.constructor` | scdt/nodes.py:13 | a counter starts at 0 |
| `Nodes.IdAllocator.Take` | scdt/nodes.py:16-17 | returns the counter's value before the call and increases it by exactly 1 |
| `Nodes.IdCounters.constructor` | scdt/nodes.py:33 | the SKU, Node and ProductionLine counters are three distinct objects, each at 0, so drawing from one leaves the others unchanged |
| `Nodes.NewSku` | scdt/nodes.py:15-18 | a new SKU's id is the SKU counter before the call; the counter goes up by 1 |
| `Nodes.Location.constructor` | scdt/nodes.py:24-26 | stores the two coordinates as given |
| `Nodes.NewNode` | scdt/nodes.py:35-39 | the Node part of every variant takes the shared Node counter's value as id and increments it |
| `Nodes.DemandNode.constructor` | scdt/nodes.py:87-89 | a demand node takes the next Node id and starts with no demands |
| `Nodes.NewOrder` | scdt/nodes.py:121-123 | a new order has no positions and order date 1 |
| `Nodes.NewCustomerOrder` | scdt/nodes.py:127-129 | a customer order is a blank order that refers to its demand node |
| `Nodes.NewPurchaseOrder` | scdt/nodes.py:133-135 | a purchase order is a blank order that refers to its supplier |
| `Nodes.NewDemand` | scdt/nodes.py:77-82 | a new demand keeps its SKU and process and has empty date and quantity histories |
| `Nodes.NewProduction` | scdt/nodes.py:95-102 | a new production has no input materials, no input quantities and no lines, and keeps its four parameters |
| `Nodes.NewProductionLine` | scdt/nodes.py:108-111 | a production line takes the ProductionLine counter's value as id and increments it |
| `Nodes.Start` | scdt/nodes.py:69-71 | the generator's first run ends waiting on a timeout |
| `Nodes.Resume` | scdt/nodes.py:70-73 | a resumption runs at the wake time, creates exactly one blank order (keeping the earlier ones), and waits again one interval later: the process never finishes |
| `Nodes.Resumes` | scdt/nodes.py:70-73 | after any number of resumptions the process is still waiting, whatever its last order date |
| `Nodes.AfterResumes` | scdt/nodes.py:69-73 | after starting at `t0` and `n` resumptions the clock is at `t0 + n*interval`, the next wake-up is at `t0 + (n+1)*interval`, and exactly `n` blank orders exist, the `k`-th created at `t0 + (k+1)*interval` |
| `Nodes.FirstOrderAfterOneInterval` | scdt/nodes.py:70-72 | the first order is created one interval after the start, so with a positive interval no order is created at the start time |
| `Nodes.OnlyIntervalMatters` | scdt/nodes.py:63-73 | two processes with the same interval run identically: SKU, quantity and `last_order_date` are never consulted |
| `Nodes.TestProcessFirstOrders` | scdt/nodes.py:155 | a test-network process started at 0 creates orders at 15, 30 and 45 and next wakes at 60 |
| `Nodes.TestSkus` | scdt/nodes.py:141 | the test SKUs are three, named `SKU_0` to `SKU_2`, with consecutive ids from the counter's value |
| `Nodes.MakeSkus` | scdt/nodes.py:141 | `n` SKUs with strictly increasing consecutive ids and names `SKU_<k>`; the SKU counter goes up by `n` |
| `Nodes.MakeFacilities` | scdt/nodes.py:142-149 | suppliers SP_A, SP_B, warehouses WH_MDL, WH_BGT and sites MFG_MDL, MFG_BGT take six consecutive Node ids in that order; WH_MDL and MFG_MDL share one Location object, WH_BGT and MFG_BGT another |
| `Nodes.MakeGridRow` | scdt/nodes.py:150-152 | one row of the grid: 10 new demand nodes with consecutive Node ids, the row's `lon` and the column's `lat` from `np.linspace`, and no demands |
| `Nodes.MakeDemandNodes` | scdt/nodes.py:150-152 | 100 distinct new demand nodes in row order over the 10 x 10 grid (outer loop over `lon`, inner over `lat`), with consecutive Node ids and no demands |
| `Nodes.TestDemands` | scdt/nodes.py:154-157 | one demand per SKU, in SKU order, each with an empty history and a process with that SKU, interval 15, quantity 100 and last order date the start date |
| `Nodes.AttachDemands` | scdt/nodes.py:153-157 | every demand node gets exactly the test demands appended, and nothing else changes |
| `Nodes.GetTestInstance` | scdt/nodes.py:140-158 | 3 SKUs; 2 suppliers, 2 warehouses, 2 production sites and 100 demand nodes whose ids are the 106 consecutive Node ids, in that order; the SKU counter advances by 3, the Node counter by 106, the ProductionLine counter not at all; the location sharing above; every demand node has the three test demands |
| `Sim.DateToSimtime` | scdt/sim.py:17-18 | `simtime_to_date` maps the result back to the date; the start date maps to 0; exactly the dates before the start date map to negative times |
| `Sim.SimtimeToDate` | scdt/sim.py:20-21 | succeeds exactly when the date `t` days after the start date exists, and that date is `t` days after the start date |
| `Sim.SimtimeRoundTrip` | scdt/sim.py:17-21 | `date_to_simtime(simtime_to_date(t)) == t` whenever the date exists |
| `Sim.DateToSimtimeMonotone` | scdt/sim.py:17-18 | `d1 <= d2` exactly when `date_to_simtime(d1) <= date_to_simtime(d2)` |
| `Sim.Env.constructor` | scdt/sim.py:8-15 | a new environment keeps its start date, network and flags, its clock is 0 and nothing is registered, so the current date is the start date |
| `Sim.Env.CurrentDate` | scdt/sim.py:23-24 | the current date is `now` days after the start date, or an overflow when there is no such date |
| `Sim.Env.Init` | scdt/sim.py:26-31 | appends the processes of every demand, node by node and demand by demand, and leaves the clock alone |
| `Sim.RegistrationCount` | scdt/sim.py:29-31 | one process is registered per demand: the total is the sum of the demand-list lengths |
| `Sim.RegistrationOf` | scdt/sim.py:29-31 | demand `j` of node `i` is registered right after all demands of earlier nodes and the first `j` demands of node `i` |
| `Sim.RegistrationAt` | scdt/sim.py:29-31 | when every node has `m` demands, `len(nodes)*m` processes are registered and demand `j` of node `i` is the `(i*m + j)`-th |
| `Sim.UniformRegistrationCount` | scdt/sim.py:29-31 | when every node has `m` demands, `len(nodes)*m` processes are registered |
| `Sim.TestNetworkRegistrations` | scdt/sim.py:29-31 | for the test network, 300 processes are registered, and the `(3i + j)`-th has SKU `j`, interval 15, quantity 100 and last order date the start date |
| `Sim.SetUpTestSimulation` | scdt/sim.py:41-43 | building the test network, an environment over it and calling `init` registers 300 processes, with the current date still the start date |

## Left out

- `Location.haversine_km` and `util/distance_helper.py`: floating-point trigonometry, not modelled.
- Coordinates are exact rationals. The literal coordinates are exact decimals, and `np.linspace` values are `start + k*(stop - start)/(num - 1)`, without floating-point rounding. The source passes the first argument of `Location(lon, lat)` as `lon`, and the model keeps that order.
- `Nodes.MakeDemandNodes`: the source names a demand node `DM_<x>,<y>` with the two numpy float coordinates as Python prints them. The model uses the grid indices instead, `DM_<a>,<b>`, because float printing is not modelled.
- `Nodes.Start`: the interval is a natural number. simpy rejects a negative delay, and simpy's source is not part of this model.
- Event queue internals (ordering, tie-breaking, the `Initialize` event, `run(until=...)`) come from simpy and are not modelled. `Start` takes the time at which the generator first runs as a parameter. `Env.queue` records registrations in order, not scheduled events.
- The source discards each order it creates. The model keeps it in the process state, with the simulation time of its creation, so that orders can be counted.
- `Env.print` and every `print` call are console output and are not modelled. When `out` is set, `Env.print` computes `current_date()`, which could overflow past 9999-12-31; that failure is not modelled.
- The `__main__` block and `date.today()`: the start date is a parameter of `SetUpTestSimulation`, and `env.run(until=365 * 5)` is not modelled.
- `Sim.Env.Init`: the source iterates the module-global `network` rather than `self.network`. In the source's own script these are the same object, and the model uses the environment's network.
- Python values without declared types are modelled as follows: quantities, batch sizes and production times are integers, and a production's product is a SKU.
- `Production` and `ProductionLine` do nothing beyond construction in the source, and there is no order fulfilment or order-position handling to model.
- The `log` flag is stored and never read.
