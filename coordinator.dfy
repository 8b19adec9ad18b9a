/**
 * The election-callback coordinator: what the sidecar does when it starts
 * leading, stops leading, or sees a new leader, and when the leader proxy
 * fails on its own. Each external call (Service patch, Redis transaction,
 * proxy start or close) is an effect appended to a log, its success given
 * as an input. The pure functions below say what one event does to the
 * state; class Coordinator carries that state in fields and updates it in
 * place, one method per callback.
 */
module Coordinator {
  import opened Common
  import Startup
  import Redis
  import Kube

  /** The proxy's upstream, fixed whatever -redis-port says. */
  const ProxyUpstream := "localhost:6379"

  /** What the callbacks read from startup, the host and the namespace file. */
  datatype Config = Config(
    hostname: string,
    namespace: string,
    leaderService: string,
    headlessService: string,
    clusterDomain: string,
    redisPortStr: string,
    leaderListen: string)

  /** The callbacks' configuration: validated settings, the hostname, the trimmed namespace. */
  function ConfigOf(s: Startup.Settings, hostname: string, namespaceText: string): Config {
    Config(hostname, Startup.TrimSpace(namespaceText), s.leaderService, s.headlessService,
           s.clusterDomain, s.redisPortStr, s.leaderListen)
  }

  /** The address of the Redis client: localhost at the configured port. */
  function RedisClientAddress(s: Startup.Settings): string {
    "localhost:" + s.redisPortStr
  }

  /** A peer pod's DNS name under the headless Service. */
  function PodDNS(c: Config, identity: string): string {
    identity + "." + c.headlessService + "." + c.namespace + ".svc." + c.clusterDomain
  }

  datatype RelayState = Stopped | Running

  /** An external call the callbacks made, with its outcome. */
  datatype Effect =
    | PatchService(service: string, patch: seq<Kube.PatchOp>, ok: bool)
    | RedisTx(batch: seq<Redis.Command>, replies: seq<bool>)
    | ProxyStart(listen: string, upstream: string, ok: bool)
    | ProxyClose(ok: bool)

  /** Whether an effect succeeded, as its caller sees it. */
  predicate Succeeded(e: Effect) {
    match e
    case PatchService(_, _, ok) => ok
    case RedisTx(batch, replies) => Redis.Outcome(replies, |batch|).Committed?
    case ProxyStart(_, _, ok) => ok
    case ProxyClose(ok) => ok
  }

  /**
   * The coordinator's state: the proxy, whether a goroutine waits on it,
   * the local Redis server, the leader Service, the cancelled and exited
   * outcomes, and the log of external calls.
   */
  datatype State = State(
    relay: RelayState,
    watching: bool,
    store: Redis.Store,
    service: Kube.Service,
    cancelled: bool,
    exited: bool,
    log: seq<Effect>)

  /**
   * An election event with the outcomes of the calls it leads to: whether
   * the API server took the patch, the replies to the queued Redis commands,
   * whether the proxy started or closed.
   */
  datatype Event =
    | StartedLeading(apiOk: bool, replies: seq<bool>, startOk: bool)
    | StoppedLeading(closeOk: bool)
    | NewLeader(identity: string, replies: seq<bool>)
    | RelayFailed

  /** The state before the first event: proxy stopped, nothing called yet. */
  function Init(store: Redis.Store, service: Kube.Service): State {
    State(Stopped, false, store, service, false, false, [])
  }

  /** The batch that promotes the local server. */
  function PromoteBatch(): seq<Redis.Command> {
    Redis.ReplicaOfBatch(Redis.PromoteHost, Redis.PromotePort)
  }

  /**
   * Started leading: patch the leader Service, promote Redis, start the
   * proxy; the first failure cancels the run and ends the callback.
   */
  function AfterStartedLeading(c: Config, s: State, apiOk: bool, replies: seq<bool>, startOk: bool): State {
    var patch := Kube.LeaderServicePatch(c.hostname);
    var patched := Kube.ApplyPatch(s.service, patch);
    var patchOk := apiOk && patched.Ok?;
    var s1 := s.(log := s.log + [PatchService(c.leaderService, patch, patchOk)]);
    if !patchOk then s1.(cancelled := true)
    else
      var s2 := s1.(service := patched.value,
                    store := Redis.ApplyTx(s.store, PromoteBatch(), replies),
                    log := s1.log + [RedisTx(PromoteBatch(), replies)]);
      if Redis.SetReplicaOfOutcome(replies).Failed? then s2.(cancelled := true)
      else
        var s3 := s2.(log := s2.log + [ProxyStart(c.leaderListen, ProxyUpstream, startOk)]);
        if !startOk then s3.(cancelled := true)
        else s3.(relay := Running, watching := true)
  }

  /** Stopped leading: close the proxy, whatever its state; a failed close exits. */
  function AfterStoppedLeading(s: State, closeOk: bool): State {
    var s1 := s.(log := s.log + [ProxyClose(closeOk)]);
    if closeOk then s1.(relay := Stopped) else s1.(exited := true)
  }

  /** New leader: nothing for self, otherwise replicate from the peer; a failure exits. */
  function AfterNewLeader(c: Config, s: State, identity: string, replies: seq<bool>): State {
    if identity == c.hostname then s
    else
      var batch := Redis.ReplicaOfBatch(PodDNS(c, identity), c.redisPortStr);
      var s1 := s.(store := Redis.ApplyTx(s.store, batch, replies),
                   log := s.log + [RedisTx(batch, replies)]);
      if Redis.SetReplicaOfOutcome(replies).Failed? then s1.(exited := true) else s1
  }

  /** The waiting goroutine sees the proxy fail: fatal, if a goroutine was started. */
  function AfterRelayFailed(s: State): State {
    if s.watching then s.(exited := true) else s
  }

  function Step(c: Config, s: State, e: Event): State {
    match e
    case StartedLeading(apiOk, replies, startOk) => AfterStartedLeading(c, s, apiOk, replies, startOk)
    case StoppedLeading(closeOk) => AfterStoppedLeading(s, closeOk)
    case NewLeader(identity, replies) => AfterNewLeader(c, s, identity, replies)
    case RelayFailed => AfterRelayFailed(s)
  }

  /** A sequence of events, processed one at a time until the process exits. */
  function Run(c: Config, s: State, events: seq<Event>): State
    decreases |events|
  {
    if events == [] || s.exited then s else Run(c, Step(c, s, events[0]), events[1..])
  }

  /** The relay state the log implies: the last successful start or close decides. */
  function RelayFromLog(log: seq<Effect>): RelayState
    decreases |log|
  {
    if log == [] then Stopped
    else
      var e := log[|log| - 1];
      if e.ProxyStart? && e.ok then Running
      else if e.ProxyClose? && e.ok then Stopped
      else RelayFromLog(log[..|log| - 1])
  }

  /** Whether an effect points Redis replication at this node's own pod. */
  predicate TargetsSelf(c: Config, e: Effect) {
    e.RedisTx? && |e.batch| > 0 && e.batch[0].SlaveOf? && e.batch[0].host == PodDNS(c, c.hostname)
  }

  /** No effect of a log replicates this node from itself. */
  ghost predicate NeverTargetsSelf(c: Config, log: seq<Effect>) {
    forall i :: 0 <= i < |log| ==> !TargetsSelf(c, log[i])
  }

  /** Every patch in a log goes to the leader Service and selects this node's pod. */
  ghost predicate PatchesSelectSelf(c: Config, log: seq<Effect>) {
    forall i :: 0 <= i < |log| && log[i].PatchService? ==>
      log[i].service == c.leaderService && log[i].patch == Kube.LeaderServicePatch(c.hostname)
  }

  /**
   * What holds after every event: the proxy runs exactly when the last
   * successful proxy call was a start, a running proxy has a goroutine
   * waiting on it, no Redis transaction ever targets this node itself, and
   * every patch this node sends points the leader Service at this node.
   */
  ghost predicate Inv(c: Config, s: State) {
    && s.relay == RelayFromLog(s.log)
    && (s.relay == Running ==> s.watching)
    && NeverTargetsSelf(c, s.log)
    && PatchesSelectSelf(c, s.log)
  }

  /**
   * The callbacks' shared state, updated in place: the proxy, the Redis
   * connection and the Service client act through the methods below.
   */
  class Coordinator {
    const cfg: Config
    var relay: RelayState
    var watching: bool
    var store: Redis.Store
    var service: Kube.Service
    var cancelled: bool
    var exited: bool
    var log: seq<Effect>

    function Snapshot(): State
      reads this
    {
      State(relay, watching, store, service, cancelled, exited, log)
    }

    /** The state `main` reaches once startup has succeeded. */
    constructor (settings: Startup.Settings, hostname: string, namespaceText: string,
                 store0: Redis.Store, service0: Kube.Service)
      requires Startup.ValidSettings(settings)
      ensures cfg == ConfigOf(settings, hostname, namespaceText)
      ensures Snapshot() == Init(store0, service0)
    {
      cfg := ConfigOf(settings, hostname, namespaceText);
      relay, watching := Stopped, false;
      store, service := store0, service0;
      cancelled, exited := false, false;
      log := [];
    }

    /** updateLeaderService: send the one-operation patch; the API server may refuse it. */
    method UpdateLeaderService(apiOk: bool) returns (ok: bool)
      modifies this
      ensures var patched := Kube.ApplyPatch(old(service), Kube.LeaderServicePatch(cfg.hostname));
        && ok == (apiOk && patched.Ok?)
        && Snapshot() == old(Snapshot()).(
             service := if ok then patched.value else old(service),
             log := old(log) + [PatchService(cfg.leaderService, Kube.LeaderServicePatch(cfg.hostname), ok)])
    {
      var patch := Kube.LeaderServicePatch(cfg.hostname);
      var patched := Kube.ApplyPatch(service, patch);
      ok := apiOk && patched.Ok?;
      if ok {
        service := patched.value;
      }
      log := log + [PatchService(cfg.leaderService, patch, ok)];
    }

    /** setReplicaOf: run the batch as one transaction and return its first error, if any. */
    method SetReplicaOf(host: string, port: string, replies: seq<bool>) returns (outcome: Redis.TxOutcome)
      modifies this
      ensures outcome == Redis.SetReplicaOfOutcome(replies)
      ensures Snapshot() == old(Snapshot()).(
                store := Redis.ApplyTx(old(store), Redis.ReplicaOfBatch(host, port), replies),
                log := old(log) + [RedisTx(Redis.ReplicaOfBatch(host, port), replies)])
    {
      var batch := Redis.ReplicaOfBatch(host, port);
      store := Redis.ApplyTx(store, batch, replies);
      log := log + [RedisTx(batch, replies)];
      outcome := Redis.Outcome(replies, |batch|);
    }

    /** proxy.Start under the proxy lock; a successful start also starts the waiting goroutine. */
    method StartProxy(startOk: bool)
      modifies this
      ensures Snapshot() == old(Snapshot()).(
                relay := if startOk then Running else old(relay),
                watching := old(watching) || startOk,
                log := old(log) + [ProxyStart(cfg.leaderListen, ProxyUpstream, startOk)])
    {
      log := log + [ProxyStart(cfg.leaderListen, ProxyUpstream, startOk)];
      if startOk {
        relay := Running;
        watching := true;
      }
    }

    /** OnStartedLeading: each failure cancels the run and returns at once. */
    method OnStartedLeading(apiOk: bool, replies: seq<bool>, startOk: bool)
      requires !exited
      modifies this
      ensures Snapshot() == AfterStartedLeading(cfg, old(Snapshot()), apiOk, replies, startOk)
    {
      var patched := UpdateLeaderService(apiOk);
      if !patched {
        cancelled := true;
        return;
      }
      var outcome := SetReplicaOf(Redis.PromoteHost, Redis.PromotePort, replies);
      if outcome.Failed? {
        cancelled := true;
        return;
      }
      StartProxy(startOk);
      if !startOk {
        cancelled := true;
        return;
      }
    }

    /** OnStoppedLeading: close the proxy under the lock; a failed close is fatal. */
    method OnStoppedLeading(closeOk: bool)
      requires !exited
      modifies this
      ensures Snapshot() == AfterStoppedLeading(old(Snapshot()), closeOk)
    {
      log := log + [ProxyClose(closeOk)];
      if !closeOk {
        exited := true;
        return;
      }
      relay := Stopped;
    }

    /** OnNewLeader: nothing when the leader is this host; otherwise replicate it, fatally on error. */
    method OnNewLeader(identity: string, replies: seq<bool>)
      requires !exited
      modifies this
      ensures Snapshot() == AfterNewLeader(cfg, old(Snapshot()), identity, replies)
    {
      if identity == cfg.hostname {
        return;
      }
      var podDNS := PodDNS(cfg, identity);
      var outcome := SetReplicaOf(podDNS, cfg.redisPortStr, replies);
      if outcome.Failed? {
        exited := true;
      }
    }

    /** The waiting goroutine's proxy.Wait returns an error: fatal. */
    method OnRelayFailed()
      requires !exited
      modifies this
      ensures Snapshot() == AfterRelayFailed(old(Snapshot()))
    {
      if watching {
        exited := true;
      }
    }

    /** Hand one event to its callback. */
    method Handle(e: Event)
      requires !exited
      modifies this
      ensures Snapshot() == Step(cfg, old(Snapshot()), e)
    {
      match e
      case StartedLeading(apiOk, replies, startOk) => OnStartedLeading(apiOk, replies, startOk);
      case StoppedLeading(closeOk) => OnStoppedLeading(closeOk);
      case NewLeader(identity, replies) => OnNewLeader(identity, replies);
      case RelayFailed => OnRelayFailed();
    }
  }
}
