# router-lab dispatch core, modelled in Dafny

router-lab is a small HTTP load balancer. It starts a few backend servers on
consecutive ports. It accepts proxied requests, picks a backend for each one
with a round-robin load balancer, records the pick in a metrics aggregator,
and forwards the request. On shutdown it prints how the requests were
distributed over the backends.

This project models the two parts of that program that hold state, and the
step that joins them:

- **Round-robin selection** (`src/load_balancer.rs`). `RoundRobinBalancer`
  keeps its backend ports in a queue. Each selection takes the front port,
  puts it at the back, and returns it. The Dafny class `RoundRobinBalancer`
  keeps the queue as a `seq<Port>` field. `SelectBackend` is proved to
  perform exactly that rotation. A ghost view records the configured order
  and every port handed out so far. Module `Rotation` gives the policy as
  values: `Rotations(q, k)` is the queue after k selections, and
  `Picks(q, k)` is the list of ports those k selections return. The lemmas
  prove the following. The queue is always a rotation and a permutation of
  the configured order. N selections over N backends return each backend
  once, in order, and leave the queue where it started. Selection N + k
  returns the same backend as selection k. Pick i is backend i mod N. With
  distinct backends, k·N selections return every backend exactly k times.
- **Metrics aggregator** (`Metrics` in `src/proxy.rs`). The class
  `Proxy.Metrics` holds the per-port count map and the running total.
  `RecordRequest` adds one to the port's count (an unseen port starts at 0)
  and one to the total. It is proved to preserve the invariant that the
  total equals the sum of the map's counts and that every stored count is
  at least 1. `Report` follows `print_stats`. It collects the map's entries
  in the map's unspecified order, sorts them in place by port, and builds
  one line per entry with its percentage. Dividing by the total is guarded
  for a zero total. `Report` is proved to list every recorded port exactly
  once, in strictly ascending port order, with its count. When the total is
  positive, the percentages add up to 100.
- **Select-then-record** (the start of `handle_proxy_request`).
  `HandleProxyRequest` selects a backend and then records that same port,
  before any network work. Whether the forwarding afterwards succeeds is a
  boolean parameter, and it has no effect on what was recorded: a failed
  connect still counts. The invariant `Consistent` says the metrics are the
  tally of exactly the ports the balancer has handed out. Under it, the
  total equals the number of selections, and with N distinct backends, k·N
  requests give exactly k requests per backend (300 requests over 3001,
  3002 and 3003 give 100 each).

Percentages are Dafny `real` values, which are exact rationals, instead of
`f64`. The interface `LoadBalancer` has a single implementation, so its
`select_backend` is modelled as the method of `RoundRobinBalancer` itself.

## Behaviour of the code worth knowing

- Nothing rejects an empty backend list at startup. The ports are the range
  built at src/main.rs:42-43, and src/main.rs:58-59 passes it to
  `RoundRobinBalancer::new` as it is. With zero backends, every
  `select_backend` call panics at src/load_balancer.rs:21 with "No backends
  available". The model returns `NoBackendsAvailable` there and leaves the
  queue unchanged. `HandleProxyRequest` then ends with `Panicked` before
  anything is recorded.
- In the code, this panic unwinds the whole connection task spawned at
  src/proxy.rs:130-144. That connection closes without a response, and later
  requests on the same keep-alive connection are never read. Only requests
  on new connections reach `select_backend`, and each of them panics in
  turn. `ServeSequentially` does not model connections: it treats every
  request as its own panic. Nothing is recorded in either case, so the
  metrics agree: no counts and a zero total.
- Round-robin is the only algorithm. src/main.rs:58-63 builds a
  `RoundRobinBalancer` for "round-robin" and exits on any other name.
- The forwarded URI carries only `req.uri().path()` (src/proxy.rs:79-80),
  so a query string is not passed on. This is in the forwarding code, which
  is not modelled.

## Model

| member | source | states |
|---|---|---|
| `Rotation.Rotate` | src/load_balancer.rs:21-22 | one pop-front/push-back step keeps the queue's length |
| `Rotation.Rotations` | src/load_balancer.rs:20-24 | the queue after k selections has the configured number of backends |
| `Rotation.RotationsPermute` | src/load_balancer.rs:20-24 | selection never adds, drops or duplicates a backend: the queue stays a permutation of the configured list |
| `Rotation.Picks` | src/load_balancer.rs:20-24 | k selections return k ports, each one of the backends passed to `new` |
| `Rotation.RotationsAdd` | src/load_balancer.rs:20-24 | a + b selections leave the queue where a selections and then b more leave it |
| `Rotation.RotationsFirstRound` | src/load_balancer.rs:21-22 | after k ≤ N selections the queue is the configured list cut at k, tail first |
| `Rotation.FullRound` | src/load_balancer.rs:32-37 | after N selections the queue equals its start |
| `Rotation.RotationsMod` | src/load_balancer.rs:20-24 | after any k selections the queue is the configured list cut at k mod N, so always a rotation of it |
| `Rotation.PicksAdd` | src/load_balancer.rs:20-24 | a + b selections return the first a picks followed by b picks from the queue left after a |
| `Rotation.PicksFirstRound` | src/load_balancer.rs:32-37 | the first k ≤ N selections return the first k backends in configured order |
| `Rotation.OneRoundInOrder` | src/load_balancer.rs:32-37 | N consecutive selections return every backend once, in configured order, and restore the queue |
| `Rotation.WrapAround` | src/load_balancer.rs:38-39 | N + k selections are one full round followed by the first k picks again |
| `Rotation.PickAt` | src/load_balancer.rs:32-39 | selection number i (from 0) returns the backend at position i mod N |
| `Rotation.WindowInOrder` | src/load_balancer.rs:20-24 | any N consecutive selections, from selection a on, return the queue as it stood before selection a: the configured list cut at a mod N |
| `Rotation.RoundsRepeat` | src/load_balancer.rs:32-39 | k·N selections return the configured list k times over and leave the queue as it started |
| `Rotation.FairRounds` | src/load_balancer.rs:20-24 | with distinct backends, k·N selections return each backend exactly k times |
| `LoadBalancer.RoundRobinBalancer.constructor` | src/load_balancer.rs:12-16 | the initial queue is the given backends, in the given order |
| `LoadBalancer.RoundRobinBalancer.SelectBackend` | src/load_balancer.rs:19-24 | returns the old front; the new queue is the old tail followed by the old front; the returned port is a configured backend; an empty queue yields `NoBackendsAvailable` and nothing changes |
| `LoadBalancer.TestRoundRobin` | src/load_balancer.rs:31-40 | backends 3001, 3002, 3003 yield 3001, 3002, 3003, 3001, 3002 |
| `LoadBalancer.QueueIsRotation` | src/load_balancer.rs:12-24 | every reachable queue is the configured list rotated by the number of selections mod N, with the same multiset of ports |
| `Counting.CountOf` | src/proxy.rs:30 | a port absent from the map reads as 0 (the `or_insert(0)` default), a present port reads as its stored count |
| `Counting.SumValuesRemove` | src/proxy.rs:17-18 | the sum of the count map does not depend on the order its entries are added up in |
| `Counting.SumValuesUpdate` | src/proxy.rs:30 | storing a new count for one port changes the sum by the difference |
| `Counting.Tally` | src/proxy.rs:29-32 | recording a history of ports one by one gives each port its number of occurrences, and stores only ports that occur |
| `Counting.TallySum` | src/proxy.rs:29-32 | the counts recorded for a history add up to its length |
| `Proxy.Percentage` | src/proxy.rs:42-46 | the division is guarded: a zero total gives 0% |
| `Proxy.PercentageMeaning` | src/proxy.rs:42-46 | a zero total gives 0%; otherwise percentage × total = 100 × count, and a part of the total lies between 0% and 100% |
| `Proxy.Metrics.constructor` | src/proxy.rs:22-27 | metrics start with no counts and a zero total |
| `Proxy.Metrics.RecordRequest` | src/proxy.rs:29-32 | the port's count goes up by one (absent counts as 0), every other port's count is unchanged, the total goes up by one, and total = sum of counts with all counts ≥ 1 is preserved |
| `Proxy.Metrics.Report` | src/proxy.rs:34-50 | the report gives the total and lists each recorded port exactly once, in ascending order, with its count and its guarded percentage |
| `Proxy.CollectEntries` | src/proxy.rs:38 | collecting the map gives one entry per recorded port with its count, no port twice |
| `Proxy.SortByPort` | src/proxy.rs:39 | the entries end sorted by port and are a permutation of the entries before |
| `Proxy.InsertAt` | src/proxy.rs:39 | one insertion step extends the sorted prefix by one element, leaves the entries after it in place, and permutes the entries |
| `Proxy.SwapDown` | src/proxy.rs:39 | exchanging two neighbours changes only those two entries |
| `Proxy.SortedEntries` | src/proxy.rs:38-39 | the collected, sorted vector lists each recorded port once with its count, sorted by port |
| `Proxy.LineOf` | src/proxy.rs:41-47 | one report line carries the entry's port and count, and 0% when the total is 0 |
| `Proxy.SortedEntriesGiveReport` | src/proxy.rs:41-48 | one line per sorted entry lists the map exactly, in strictly ascending port order |
| `Proxy.ListedSum` | src/proxy.rs:36-41 | the counts on the report add up to the sum of the count map |
| `Proxy.ScaledSum` | src/proxy.rs:42-46 | the sum of the percentages times the total is 100 times the sum of the counts |
| `Proxy.SharesOfWholeSum` | src/proxy.rs:42-46 | lines whose counts add up to a positive total have percentages that add up to 100 |
| `Proxy.PercentagesSumTo100` | src/proxy.rs:41-48 | when the total is positive, the report's percentages add up to exactly 100 |
| `Proxy.ZeroTotalMeansEmpty` | src/proxy.rs:29-32 | metrics whose total is 0 have no entries, so the report then has no lines |
| `Proxy.TotalIsSelections` | src/proxy.rs:61-70 | the metrics total equals the number of selections made |
| `Proxy.HandleProxyRequest` | src/proxy.rs:58-75 | a request selects the front backend and then records that same port; the record does not depend on whether forwarding then succeeds; an empty queue panics before anything is recorded; consistency of metrics and balancer is preserved |
| `Proxy.ServeSequentially` | src/proxy.rs:123-146 | after serving a list of requests in turn, the counts are the tally of the round-robin picks and the total is the number of requests; with no backends nothing is recorded |
| `Proxy.FairDistribution` | src/proxy.rs:61-70 | with N distinct backends, k·N requests give each backend exactly k recorded requests and record no other port |
| `Proxy.ThreeHundredRequests` | src/proxy.rs:61-70 | 300 requests against 3001, 3002 and 3003 record exactly 100 for each |

## Left out

- The network path of `handle_proxy_request` from the connect onward (src/proxy.rs:72-107) is not modelled. This covers the TCP connect, building the request, the HTTP handshake, the spawned connection driver and relaying the response. All of it is tokio and hyper I/O. Whether it succeeds is the `upstreamOk` parameter of `HandleProxyRequest`.
- The listener bind and accept loop of `run_proxy` (src/proxy.rs:110-149) are reduced to `ServeSequentially`. It handles requests one after another. The `Arc<Mutex<…>>` sharing and the `tokio::spawn` tasks are not modelled, so each select-and-record is one atomic step.
- `Proxy.Metrics.Report`: the `f64` percentage and its `{:.1}` formatting are not modelled. The percentage is an exact rational (`real`), and the lines are returned instead of printed.
- `Proxy.Metrics.RecordRequest`: does not model `usize` overflow of the counters. Counts are unbounded naturals.
- Tracing and `println!` output, as well as `src/main.rs` (argument parsing, backend spawning, the startup sleep, Ctrl+C handling, the exit on an unknown algorithm name), are not modelled. They are startup glue.
- `src/backend.rs`, the upstream responder, is not part of this model.
