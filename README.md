# Election-driven Redis primary: a verified model

This project models the decision layer of a sidecar that keeps one Redis
primary per StatefulSet. The sidecar takes part in a Kubernetes lease
election, and each election callback does three things in order: it points
the leader Service at the winning pod, it reconfigures the local Redis
server with `SLAVEOF` in a MULTI/EXEC transaction, and it starts or closes
a TCP proxy that forwards the leader port to Redis.

The model has six modules:

- `Decimal` (decimal.dfy): `strconv.FormatUint(n, 10)` for the port
  strings, with a parse that undoes it. The round trip is proved in both
  directions.
- `Startup` (startup.dfy): the startup checks in `main`.
  - The `flag.Visit` loop deletes each visited name from the required set.
  - One missing flag is reported. Which one depends on map order.
  - The two port range checks, the Redis port string and the leader
    listen address.
  - `strings.TrimSpace` on the namespace text.
- `Redis` (redis.dfy): the batch `setReplicaOf` queues, as a sequence of
  command values. It also models the first-error outcome the pipelined
  transaction returns, and what the acknowledged commands do to the
  server's role and its connected client kinds.
- `Kube` (kube.dfy): the one-operation JSON Patch that
  `updateLeaderService` sends, as a value. Applying it follows section 4.3
  of RFC 6902: "replace" needs the target to exist and swaps the whole
  value.
- `Coordinator` (coordinator.dfy): the three `LeaderCallbacks` closures and
  the proxy's waiting goroutine, in two forms.
  - Pure functions say what one event does to the state: the proxy state,
    whether a goroutine waits on the proxy, the Redis server, the leader
    Service, the cancelled and exited outcomes, and a log of external calls.
  - Class `Coordinator` holds that state in fields. It has one method per
    callback, and each method is proved equal to its function.
- `CoordinatorProperties` (properties.dfy): properties of the callbacks.
  - Ordering and fail-fast for started-leading.
  - No self-replication.
  - The exact replication a peer leader causes.
  - Proxy close.
  - Invariants kept over every sequence of events.
  - Scenarios: a flapping lease, the hand-off window, a three-node handover.

Each external call takes its success as an input:

- whether the API server accepted the patch;
- one reply per queued Redis command (a command without a reply failed);
- whether the proxy started or closed.

The two terminal outcomes stay distinct:

- `cancelled` comes from `cancel()` when started-leading fails.
- `exited` comes from `klog.Fatal`: when stopped-leading or a peer
  replication fails, or when the waiting goroutine sees the proxy fail.

Two quirks are kept as written:

- The proxy upstream is `localhost:6379`, whatever `-redis-port` says
  (`UpstreamIgnoresRedisPort`).
- The replica target port is the local `-redis-port` string
  (`PeerReplication`).

The model keeps these behaviours of the code, which a reader might expect to be otherwise:

- A failed proxy start calls `cancel()` instead of `klog.Fatal`. The process
  then ends when the election loop returns, which is not part of this model
  (see the `cancel()` line under "Left out").
- The goroutine waiting on the proxy starts after every successful start and
  is never stopped. A proxy failure it reports after a clean close still
  exits the process (`LateRelayFailureExits`). It is not ignored.
- Nothing stops the proxy from forwarding to a server that has just become
  a replica. If a new leader is reported before stopped-leading, the proxy
  keeps running (`HandOffWindow`).
- The role change is not all-or-nothing. MULTI/EXEC does not roll back. If
  `SLAVEOF` is acknowledged and a `CLIENT KILL` fails, `setReplicaOf`
  reports failure even though the role has already changed
  (`PartialFailureSwitchesRole`).
- Only `leader-service`, `lock` and `headless-service` are required. Each
  counts as present once given, even with an empty value. The ports and
  the cluster domain have defaults (6379, 6378 and `cluster.local`); the
  `flag` package supplies them, and it is not part of this model.
- The Service update is a JSON Patch "replace" of the whole selector, not a
  merge. Applied with the strict RFC 6902 rule that "replace" needs an
  existing target, as this model assumes, it fails when the Service has no
  selector (`LeaderPatchEffect`).

A `Coordinator` is built only from settings that satisfy
`Startup.ValidSettings`: both ports in range and the strings derived from
them. A successful `Startup` guarantees exactly this, so every startup
failure happens before the cluster or Redis is contacted.

## Model

| member | source | states |
|---|---|---|
| `Decimal.FormatUint` | main.go:58 | the port string is a non-empty run of decimal digits with no leading zero, and starts with '0' exactly for 0 |
| `Decimal.ParseFormat` | main.go:58 | parsing the decimal spelling of n gives n back |
| `Decimal.FormatParse` | main.go:58 | every canonical digit string is the spelling of the number it denotes |
| `Decimal.FormatInjective` | main.go:58 | distinct ports have distinct strings |
| `Startup.ListenAddress` | main.go:62 | the listen address is ':' followed by the canonical decimal leader port, which parses back to the port |
| `Startup.ListenAddressInjective` | main.go:62 | two leader ports share a listen address only if they are equal |
| `Startup.PruneRequired` | main.go:44-46 | after deleting every visited name from {leader-service, lock, headless-service}, a name is missing iff it is required and was not visited |
| `Startup.Startup` | main.go:44-62 | startup succeeds iff every required flag was given and both ports are in 1..65535. Failures are checked in order: a missing flag (the name reported is required and unset), then the Redis port, then the leader port. On success the settings carry the flag values, the decimal Redis port string and the listen address, and satisfy `ValidSettings` |
| `Startup.TrimSpace` | main.go:179 | the namespace is an infix of the text with only white space before and after it, and it neither starts nor ends with white space |
| `Startup.TrimSpaceIdempotent` | main.go:179 | trimming a trimmed namespace changes nothing |
| `Redis.Outcome` | main.go:186-202 | the transaction succeeds iff every queued command was acknowledged; otherwise it reports the first command that failed |
| `Redis.ReplicaOfBatchEffect` | main.go:184-203 | the batch is three commands with SLAVEOF host port first, then two CLIENT KILLs. Run in full, it sets the role for host/port and drops the normal and pub/sub client kinds (Redis sparing the calling connection is not modelled) |
| `Redis.ReplicaOfBatchRole` | main.go:187-199 | for any replies, the role after the batch is the one for host/port iff SLAVEOF was acknowledged, and the old role otherwise |
| `Redis.PromoteMakesPrimary` | main.go:129 | the batch for host NO and port ONE makes the server a primary |
| `Redis.DottedHostIsReplica` | main.go:163-164 | a host containing a dot always means "replicate from", never promotion |
| `Redis.AnyFailedStepFails` | main.go:186-202 | a failure at any single step of the batch makes setReplicaOf report failure, at that step or earlier |
| `Redis.PartialFailureSwitchesRole` | main.go:186-202 | with SLAVEOF acknowledged and the first CLIENT KILL failed, setReplicaOf reports failure at step 1 although the role has already changed |
| `Kube.LeaderPatchEffect` | main.go:206-223 | the patch is one "replace" operation. Under strict RFC 6902 application, it fails iff the Service has no selector. Otherwise the selector becomes exactly {pod-name label: pod}, dropping earlier entries, and every other field is unchanged |
| `Kube.PodSelectorSelectsOnlyPod` | main.go:212-214 | the new selector picks a pod iff that pod's pod-name label is the leader's name |
| `Coordinator.Coordinator.constructor` | main.go:101-103 | built only from settings a successful startup returns (`ValidSettings`); before any event the proxy is stopped, nothing is cancelled or exited, and the log is empty |
| `Coordinator.Coordinator.UpdateLeaderService` | main.go:206-223 | the patch succeeds iff the API server accepts it and it applies. The Service changes only on success. One patch effect is logged |
| `Coordinator.Coordinator.SetReplicaOf` | main.go:184-203 | one transaction of the batch is logged and applied to the server, and its first-error outcome is returned |
| `Coordinator.Coordinator.StartProxy` | main.go:134-146 | a proxy start is logged. On success the proxy runs and a goroutine waits on it |
| `Coordinator.Coordinator.OnStartedLeading` | main.go:122-148 | the new state is AfterStartedLeading of the old: patch, promote, then start; the first failure cancels and returns |
| `Coordinator.Coordinator.OnStoppedLeading` | main.go:149-157 | the new state is AfterStoppedLeading of the old: one close; stopped on success, exited on failure |
| `Coordinator.Coordinator.OnNewLeader` | main.go:158-167 | the new state is AfterNewLeader of the old: nothing for self; otherwise replicate the peer, and exit on failure |
| `Coordinator.Coordinator.OnRelayFailed` | main.go:142-146 | the process exits if a goroutine waits on the proxy, and nothing changes otherwise |
| `Coordinator.Coordinator.Handle` | main.go:121-168 | each event goes to its callback, and the new state is Step of the old |
| `CoordinatorProperties.PodDNSInjective` | main.go:163 | two identities with the same pod DNS name are equal |
| `CoordinatorProperties.PodDNSExample` | main.go:163 | pod-1, redis-headless, default and cluster.local give pod-1.redis-headless.default.svc.cluster.local |
| `CoordinatorProperties.StartedLeadingOrder` | main.go:122-141 | started-leading appends one to three effects, in the order Service patch, SLAVEOF NO ONE batch, proxy start. Each step runs only after the one before succeeded, and the callback stops early only on a failure. It cancels iff a step failed, the proxy runs after it iff all three succeeded (or it was already running), the patch fails when the Service has no selector (strict RFC 6902 application), and nothing exits |
| `CoordinatorProperties.NoSelfReplication` | main.go:159-162 | a new leader equal to the hostname issues no command and changes nothing |
| `CoordinatorProperties.PeerReplication` | main.go:163-166 | any other new leader logs exactly one transaction: the batch for its pod DNS name and the local Redis port string. The server becomes its replica iff SLAVEOF was acknowledged. The process exits iff the transaction failed. Proxy, Service and cancellation are unchanged, and the transaction never targets this node |
| `CoordinatorProperties.StoppedLeadingCloses` | main.go:149-156 | stopped-leading logs one close whatever the proxy state. The proxy is stopped if the close succeeds, and the process exits if it fails |
| `CoordinatorProperties.StepKeepsInv` | main.go:121-167 | every event keeps the coordinator invariant |
| `CoordinatorProperties.RunFromInit` | main.go:121-167 | over any events from startup: the proxy runs iff the last successful proxy call was a start, a running proxy is watched, no transaction replicates the node from its own pod, and every patch the node sends goes to the leader Service and selects this node's pod |
| `CoordinatorProperties.RunMonotone` | main.go:121-167 | the effect log only grows, cancellation is never undone, and after an exit nothing happens |
| `CoordinatorProperties.FlappingLeaseStopsRelay` | main.go:122-156 | started-leading followed at once by stopped-leading never leaves the proxy running: it is stopped or the process exited |
| `CoordinatorProperties.HandOffWindow` | main.go:122-166 | a leader that sees another leader before stopped-leading keeps its proxy running while its Redis already replicates the new leader |
| `CoordinatorProperties.LateRelayFailureExits` | main.go:142-156 | a proxy failure reported after a clean close still exits the process |
| `CoordinatorProperties.UpstreamIgnoresRedisPort` | main.go:102 | for any settings a successful startup returns, the proxy upstream differs from the Redis client address whenever the Redis port is not 6379 |
| `CoordinatorProperties.ThreeNodeHandOver` | main.go:121-167 | three nodes a, b, c. a leads, then b. In the end a's proxy is stopped and a replicates b; b is primary with its proxy running and has sent an accepted patch selecting b; c replicates b at the same address a uses |

## Left out

- Hostname lookup, in-cluster configuration, reading the namespace file, building the Redis client and its initial ping, and logging are I/O. The hostname and the namespace text are inputs. The trimming of the namespace is modelled.
- `flag.Parse` and flag syntax are left out. Parsed values and the list of visited flag names are inputs. Port values are Go's 64-bit `uint`.
- The election algorithm itself (`leaderelection.RunOrDie`, lease timings, `ReleaseOnCancel`) is left out. Events are inputs, and any sequence of them is allowed, which is more than the library produces. The effect of `cancel()` on the election loop is recorded only as the `cancelled` flag.
- The leader Service is one object that every node patches. Each node's `service` field is only that node's view of it, changed only by that node's own patches; other nodes' patches and the order in which patches from different nodes land are not modelled. The properties about the Service are therefore stated about the patches a node sends.
- The SIGTERM goroutine is left out: its point is concurrency.
- The callbacks running concurrently and `proxyLock` are left out. In this sequential model, proxy start and close are already atomic steps.
- The Kubernetes API, the Redis server and `tcpproxy` are outside libraries. Their success or failure is an input. `tcpproxy`'s refusal to start twice is therefore not derived; it appears only as a failed start.
- Redis replies: an acknowledged command takes effect and a failed one does not. A command that ran but whose reply was lost is not modelled.
- `Kube.ApplyOp`: only "replace" at `/spec/selector` is modelled; other operations and paths give an error. The patch is a value, and JSON marshalling is not modelled (its panic cannot happen for this value). The model assumes the API server applies "replace" with the strict RFC 6902 rule that the target must exist; that the Kubernetes API server enforces this rule for `/spec/selector` is not established here.
- `Redis.RoleFor` and `Redis.Exec` compare keywords by ASCII case folding only, and model only the TYPE filter of CLIENT KILL. CLIENT KILL skips the calling connection by default (SKIPME yes); the model has no notion of the caller's own connection.
