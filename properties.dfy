/**
 * What the election callbacks guarantee: the order and fail-fast of the
 * started-leading steps, no replication from self, the shape of a peer
 * replication, the proxy close, and the invariants kept over any sequence
 * of events.
 */
module CoordinatorProperties {
  import opened Common
  import Decimal
  import Startup
  import Redis
  import Kube
  import opened Coordinator

  /** A pod name is recovered from its DNS name: distinct identities never share one. */
  lemma PodDNSInjective(c: Config, a: string, b: string)
    requires PodDNS(c, a) == PodDNS(c, b)
    ensures a == b
  {
    var suffix := "." + c.headlessService + "." + c.namespace + ".svc." + c.clusterDomain;
    assert PodDNS(c, a) == a + suffix;
    assert PodDNS(c, b) == b + suffix;
    assert a == (a + suffix)[..|a|];
    assert b == (b + suffix)[..|b|];
  }

  /** Every pod DNS name contains a dot. */
  lemma PodDNSDotted(c: Config, identity: string)
    ensures '.' in PodDNS(c, identity)
  {
    assert PodDNS(c, identity)[|identity|] == '.';
  }

  /** The worked example of the pod-DNS naming convention. */
  lemma PodDNSExample(c: Config)
    requires c.headlessService == "redis-headless" && c.namespace == "default"
    requires c.clusterDomain == "cluster.local"
    ensures PodDNS(c, "pod-1") == "pod-1.redis-headless.default.svc.cluster.local"
  {
    var a := "pod-1" + ".";
    assert a == "pod-1.";
    var b := a + "redis-headless";
    assert b == "pod-1.redis-headless";
    var d := b + "." + "default";
    assert d == "pod-1.redis-headless.default";
    var e := d + ".svc.";
    assert e == "pod-1.redis-headless.default.svc.";
    assert e + "cluster.local" == "pod-1.redis-headless.default.svc.cluster.local";
  }

  /**
   * Started leading appends one to three effects, in the order Service
   * patch, promotion batch, proxy start; a step is attempted only when the
   * one before it succeeded, and it stops early only on a failure. The run is cancelled
   * exactly when a step failed, and the proxy runs afterwards exactly when
   * all three succeeded (or was already running). The patch fails whenever
   * the Service has no selector. Nothing exits.
   */
  lemma StartedLeadingOrder(c: Config, s: State, apiOk: bool, replies: seq<bool>, startOk: bool)
    ensures var t := AfterStartedLeading(c, s, apiOk, replies, startOk);
      |s.log| < |t.log| <= |s.log| + 3 && t.log[..|s.log|] == s.log
    ensures var t := AfterStartedLeading(c, s, apiOk, replies, startOk);
      var added := t.log[|s.log|..];
      && added[0] == PatchService(c.leaderService, Kube.LeaderServicePatch(c.hostname),
                                  apiOk && s.service.selector.Some?)
      && (|added| > 1 ==> Succeeded(added[0]) && added[1] == RedisTx(PromoteBatch(), replies))
      && (|added| > 2 ==> Succeeded(added[1])
                          && added[2] == ProxyStart(c.leaderListen, ProxyUpstream, startOk))
      && (|added| < 3 ==> !Succeeded(added[|added| - 1]))
      && t.cancelled == (s.cancelled || !Succeeded(added[|added| - 1]))
      && t.relay == (if Succeeded(added[|added| - 1]) then Running else s.relay)
      && t.exited == s.exited
  {
    var t := AfterStartedLeading(c, s, apiOk, replies, startOk);
    var e1 := PatchService(c.leaderService, Kube.LeaderServicePatch(c.hostname), apiOk && s.service.selector.Some?);
    var e2 := RedisTx(PromoteBatch(), replies);
    var e3 := ProxyStart(c.leaderListen, ProxyUpstream, startOk);
    StartedLeadingCases(c, s, apiOk, replies, startOk);
    if !e1.ok {
      assert t.log[|s.log|..] == [e1];
    } else if !Succeeded(e2) {
      assert t.log[|s.log|..] == [e1, e2];
    } else {
      assert t.log[|s.log|..] == [e1, e2, e3];
    }
  }

  /** The three ways started leading can end, one per failing step, and success. */
  lemma StartedLeadingCases(c: Config, s: State, apiOk: bool, replies: seq<bool>, startOk: bool)
    ensures var t := AfterStartedLeading(c, s, apiOk, replies, startOk);
      var e1 := PatchService(c.leaderService, Kube.LeaderServicePatch(c.hostname), apiOk && s.service.selector.Some?);
      var e2 := RedisTx(PromoteBatch(), replies);
      var e3 := ProxyStart(c.leaderListen, ProxyUpstream, startOk);
      && t.exited == s.exited
      && (!e1.ok ==> t.log == s.log + [e1] && t.cancelled && t.relay == s.relay)
      && (e1.ok && !Succeeded(e2) ==> t.log == s.log + [e1, e2] && t.cancelled && t.relay == s.relay)
      && (e1.ok && Succeeded(e2) ==>
            t.log == s.log + [e1, e2, e3]
            && t.cancelled == (s.cancelled || !startOk)
            && t.relay == (if startOk then Running else s.relay))
  {
    Kube.LeaderPatchEffect(s.service, c.hostname);
  }

  /** The new leader is this host: no Redis command, no change at all. */
  lemma NoSelfReplication(c: Config, s: State, replies: seq<bool>)
    ensures AfterNewLeader(c, s, c.hostname, replies) == s
  {
  }

  /**
   * Any other new leader: exactly one transaction, the replication batch
   * aimed at the peer's pod DNS name and the local Redis port; the server
   * becomes its replica when SLAVEOF was acknowledged; a failure exits; the
   * proxy, the Service and the cancelled flag are untouched.
   */
  lemma PeerReplication(c: Config, s: State, identity: string, replies: seq<bool>)
    requires identity != c.hostname
    ensures var t := AfterNewLeader(c, s, identity, replies);
      && t.log == s.log + [RedisTx(Redis.ReplicaOfBatch(PodDNS(c, identity), c.redisPortStr), replies)]
      && t.store.role == (if Redis.Acked(replies, 0)
                          then Redis.ReplicaOf(PodDNS(c, identity), c.redisPortStr) else s.store.role)
      && t.exited == (s.exited || Redis.SetReplicaOfOutcome(replies).Failed?)
      && t.relay == s.relay && t.service == s.service && t.cancelled == s.cancelled
      && !TargetsSelf(c, t.log[|t.log| - 1])
  {
    var host := PodDNS(c, identity);
    Redis.ReplicaOfBatchRole(s.store, host, c.redisPortStr, replies);
    PodDNSDotted(c, identity);
    Redis.DottedHostIsReplica(host, c.redisPortStr);
    if host == PodDNS(c, c.hostname) {
      PodDNSInjective(c, identity, c.hostname);
    }
  }

  /**
   * Stopped leading closes the proxy whatever its state: one close effect;
   * the proxy is stopped if the close worked, and the process exits if not.
   */
  lemma StoppedLeadingCloses(s: State, closeOk: bool)
    ensures var t := AfterStoppedLeading(s, closeOk);
      && t.log == s.log + [ProxyClose(closeOk)]
      && (closeOk ==> t.relay == Stopped && t.exited == s.exited)
      && (!closeOk ==> t.relay == s.relay && t.exited)
      && t.cancelled == s.cancelled && t.store == s.store && t.service == s.service
  {
  }

  /** Appending an effect that is not a successful proxy call leaves the implied relay state alone. */
  lemma RelayFromLogAppend(log: seq<Effect>, e: Effect)
    ensures RelayFromLog(log + [e]) ==
              if e.ProxyStart? && e.ok then Running
              else if e.ProxyClose? && e.ok then Stopped
              else RelayFromLog(log)
  {
    assert (log + [e])[..|log|] == log;
  }

  /** The promotion batch is not aimed at any pod. */
  lemma PromoteNotSelf(c: Config, replies: seq<bool>)
    ensures !TargetsSelf(c, RedisTx(PromoteBatch(), replies))
  {
    PodDNSDotted(c, c.hostname);
    assert '.' !in Redis.PromoteHost;
  }

  lemma NeverTargetsSelfAppend(c: Config, log: seq<Effect>, e: Effect)
    requires NeverTargetsSelf(c, log) && !TargetsSelf(c, e)
    ensures NeverTargetsSelf(c, log + [e])
  {
    forall i | 0 <= i < |log + [e]|
      ensures !TargetsSelf(c, (log + [e])[i])
    {
      if i < |log| {
        assert (log + [e])[i] == log[i];
      }
    }
  }

  lemma PatchesSelectSelfAppend(c: Config, log: seq<Effect>, e: Effect)
    requires PatchesSelectSelf(c, log)
    requires e.PatchService? ==> e.service == c.leaderService && e.patch == Kube.LeaderServicePatch(c.hostname)
    ensures PatchesSelectSelf(c, log + [e])
  {
    forall i | 0 <= i < |log + [e]| && (log + [e])[i].PatchService?
      ensures (log + [e])[i].service == c.leaderService
      ensures (log + [e])[i].patch == Kube.LeaderServicePatch(c.hostname)
    {
      if i < |log| {
        assert (log + [e])[i] == log[i];
      }
    }
  }

  /** Started leading keeps the invariant. */
  lemma StartedLeadingKeepsInv(c: Config, s: State,
                               apiOk: bool, replies: seq<bool>, startOk: bool)
    requires Inv(c, s)
    ensures Inv(c, AfterStartedLeading(c, s, apiOk, replies, startOk))
  {
    var t := AfterStartedLeading(c, s, apiOk, replies, startOk);
    Kube.LeaderPatchEffect(s.service, c.hostname);
    PromoteNotSelf(c, replies);
    var e1 := PatchService(c.leaderService, Kube.LeaderServicePatch(c.hostname), apiOk && s.service.selector.Some?);
    var e2 := RedisTx(PromoteBatch(), replies);
    var e3 := ProxyStart(c.leaderListen, ProxyUpstream, startOk);
    var l1 := s.log + [e1];
    var l2 := l1 + [e2];
    var l3 := l2 + [e3];
    assert NeverTargetsSelf(c, s.log);
    RelayFromLogAppend(s.log, e1);
    NeverTargetsSelfAppend(c, s.log, e1);
    PatchesSelectSelfAppend(c, s.log, e1);
    RelayFromLogAppend(l1, e2);
    NeverTargetsSelfAppend(c, l1, e2);
    PatchesSelectSelfAppend(c, l1, e2);
    RelayFromLogAppend(l2, e3);
    NeverTargetsSelfAppend(c, l2, e3);
    PatchesSelectSelfAppend(c, l2, e3);
    assert t.log == l1 || t.log == l2 || t.log == l3;
  }

  /** Stopped leading keeps the invariant. */
  lemma StoppedLeadingKeepsInv(c: Config, s: State, closeOk: bool)
    requires Inv(c, s)
    ensures Inv(c, AfterStoppedLeading(s, closeOk))
  {
    assert NeverTargetsSelf(c, s.log);
    RelayFromLogAppend(s.log, ProxyClose(closeOk));
    NeverTargetsSelfAppend(c, s.log, ProxyClose(closeOk));
    PatchesSelectSelfAppend(c, s.log, ProxyClose(closeOk));
  }

  /** A new leader keeps the invariant. */
  lemma NewLeaderKeepsInv(c: Config, s: State,
                          identity: string, replies: seq<bool>)
    requires Inv(c, s)
    ensures Inv(c, AfterNewLeader(c, s, identity, replies))
  {
    if identity != c.hostname {
      var t := AfterNewLeader(c, s, identity, replies);
      PeerReplication(c, s, identity, replies);
      var e := t.log[|t.log| - 1];
      assert t.log == s.log + [e];
      assert NeverTargetsSelf(c, s.log);
      RelayFromLogAppend(s.log, e);
      NeverTargetsSelfAppend(c, s.log, e);
      PatchesSelectSelfAppend(c, s.log, e);
    }
  }

  /** One event keeps the invariant. */
  lemma StepKeepsInv(c: Config, s: State, e: Event)
    requires Inv(c, s)
    ensures Inv(c, Step(c, s, e))
  {
    match e
    case StartedLeading(apiOk, replies, startOk) => StartedLeadingKeepsInv(c, s, apiOk, replies, startOk);
    case StoppedLeading(closeOk) => StoppedLeadingKeepsInv(c, s, closeOk);
    case NewLeader(identity, replies) => NewLeaderKeepsInv(c, s, identity, replies);
    case RelayFailed =>
  }

  /** The invariant holds before the first event. */
  lemma InitInv(c: Config, store: Redis.Store, service: Kube.Service)
    ensures Inv(c, Init(store, service))
  {
  }

  /** Any sequence of events keeps the invariant. */
  lemma {:induction false} RunKeepsInv(c: Config, s: State, events: seq<Event>)
    requires Inv(c, s)
    ensures Inv(c, Run(c, s, events))
    decreases |events|
  {
    if events != [] && !s.exited {
      StepKeepsInv(c, s, events[0]);
      RunKeepsInv(c, Step(c, s, events[0]), events[1..]);
    }
  }

  /**
   * From startup on, whatever the events and outcomes: the proxy is running
   * exactly when the last successful proxy call was a start, a running proxy
   * is watched, no transaction ever replicates this node from itself, and
   * every patch this node sends points the leader Service at this node.
   */
  lemma RunFromInit(c: Config, store: Redis.Store, service: Kube.Service, events: seq<Event>)
    ensures var t := Run(c, Init(store, service), events);
      && t.relay == RelayFromLog(t.log)
      && (t.relay == Running ==> t.watching)
      && (forall i :: 0 <= i < |t.log| ==> !TargetsSelf(c, t.log[i]))
      && (forall i :: 0 <= i < |t.log| && t.log[i].PatchService? ==>
            t.log[i].service == c.leaderService && t.log[i].patch == Kube.LeaderServicePatch(c.hostname))
  {
    InitInv(c, store, service);
    RunKeepsInv(c, Init(store, service), events);
  }

  /** One event only appends to the log and never clears the cancelled flag. */
  lemma StepMonotone(c: Config, s: State, e: Event)
    ensures var t := Step(c, s, e);
      |s.log| <= |t.log| && t.log[..|s.log|] == s.log && (s.cancelled ==> t.cancelled)
  {
    var t := Step(c, s, e);
    if e.StartedLeading? {
      StartedLeadingOrder(c, s, e.apiOk, e.replies, e.startOk);
    } else {
      assert t.log == s.log || t.log == s.log + [t.log[|t.log| - 1]];
    }
  }

  /** The log only grows, cancellation is never undone, and after an exit nothing happens. */
  lemma {:induction false} RunMonotone(c: Config, s: State, events: seq<Event>)
    ensures var t := Run(c, s, events);
      && |s.log| <= |t.log| && t.log[..|s.log|] == s.log
      && (s.cancelled ==> t.cancelled)
      && (s.exited ==> t == s)
    decreases |events|
  {
    if events != [] && !s.exited {
      var s1 := Step(c, s, events[0]);
      StepMonotone(c, s, events[0]);
      RunMonotone(c, s1, events[1..]);
      var t := Run(c, s1, events[1..]);
      assert t == Run(c, s, events);
      assert t.log[..|s.log|] == t.log[..|s1.log|][..|s.log|];
    }
  }

  /**
   * A lease that is gained and at once lost never leaves the proxy running
   * once both events are processed: the close either stops it or exits.
   */
  lemma FlappingLeaseStopsRelay(c: Config, s: State, apiOk: bool, replies: seq<bool>, startOk: bool, closeOk: bool)
    requires !s.exited
    ensures var t := Run(c, s, [StartedLeading(apiOk, replies, startOk), StoppedLeading(closeOk)]);
      t.relay == Stopped || t.exited
  {
    var s1 := Step(c, s, StartedLeading(apiOk, replies, startOk));
    var s2 := Step(c, s1, StoppedLeading(closeOk));
    assert [StartedLeading(apiOk, replies, startOk), StoppedLeading(closeOk)][1..] == [StoppedLeading(closeOk)];
    assert Run(c, s2, []) == s2;
    assert Run(c, s1, [StoppedLeading(closeOk)]) == s2;
  }

  /**
   * The hand-off window: a leader that sees another leader before it is
   * told it stopped leading keeps its proxy running while its Redis is
   * already a replica of the new leader.
   */
  lemma HandOffWindow(c: Config, store: Redis.Store, service: Kube.Service, other: string)
    requires service.selector.Some? && other != c.hostname
    ensures var t := Run(c, Init(store, service),
                         [StartedLeading(true, [true, true, true], true), NewLeader(other, [true, true, true])]);
      && t.relay == Running && !t.exited && !t.cancelled
      && t.store.role == Redis.ReplicaOf(PodDNS(c, other), c.redisPortStr)
  {
    var s0 := Init(store, service);
    var ok3 := [true, true, true];
    var evs := [StartedLeading(true, ok3, true), NewLeader(other, ok3)];
    Kube.LeaderPatchEffect(service, c.hostname);
    assert Redis.Outcome(ok3, 1) == Redis.Committed;
    assert Redis.Outcome(ok3, 2) == Redis.Committed;
    assert Redis.SetReplicaOfOutcome(ok3) == Redis.Committed;
    var s1 := Step(c, s0, evs[0]);
    assert s1.relay == Running && !s1.exited;
    var s2 := Step(c, s1, evs[1]);
    PeerReplication(c, s1, other, ok3);
    assert evs[1..][1..] == [];
    assert Run(c, s2, []) == s2;
    assert Run(c, s1, evs[1..]) == s2;
  }

  /**
   * The goroutine waiting on the proxy outlives a clean close: a proxy
   * failure reported after the proxy was stopped still exits the process.
   */
  lemma LateRelayFailureExits(c: Config, s: State, apiOk: bool, replies: seq<bool>)
    requires !s.exited && s.service.selector.Some?
    requires Redis.SetReplicaOfOutcome(replies).Committed?
    ensures var t := Run(c, s, [StartedLeading(true, replies, true), StoppedLeading(true), RelayFailed]);
      t.relay == Stopped && t.exited
  {
    var evs := [StartedLeading(true, replies, true), StoppedLeading(true), RelayFailed];
    Kube.LeaderPatchEffect(s.service, c.hostname);
    var s1 := Step(c, s, evs[0]);
    assert s1.watching && !s1.exited;
    var s2 := Step(c, s1, evs[1]);
    var s3 := Step(c, s2, evs[2]);
    assert s3.exited && s3.relay == Stopped;
    assert evs[1..][1..][1..] == [];
    assert Run(c, s3, []) == s3;
    assert Run(c, s2, evs[1..][1..]) == s3;
    assert Run(c, s1, evs[1..]) == s3;
  }

  /**
   * The proxy's upstream stays localhost:6379 while the Redis client uses
   * the configured port: the two differ whenever -redis-port is not 6379.
   */
  lemma UpstreamIgnoresRedisPort(s: Startup.Settings)
    requires Startup.ValidSettings(s)
    requires s.redisPort != 6379
    ensures RedisClientAddress(s) != ProxyUpstream
  {
    Decimal.ParseFormat(s.redisPort);
    assert Decimal.ParseDecimal("6379") == 6379 by {
      assert "6379"[..3] == "637" && "637"[..2] == "63" && "63"[..1] == "6" && "6"[..0] == "";
    }
    assert s.redisPortStr != "6379";
    assert RedisClientAddress(s)[10..] == s.redisPortStr;
    assert ProxyUpstream[10..] == "6379";
  }

  /** Started leading with every call succeeding: the node is the serving primary. */
  lemma StartedLeadingAllOk(c: Config, s: State)
    requires s.service.selector.Some?
    ensures var t := AfterStartedLeading(c, s, true, [true, true, true], true);
      && t.relay == Running && t.store.role == Redis.Primary
      && t.service.selector == Some(Kube.PodSelector(c.hostname))
      && t.cancelled == s.cancelled && t.exited == s.exited
      && t.log == s.log + [PatchService(c.leaderService, Kube.LeaderServicePatch(c.hostname), true),
                           RedisTx(PromoteBatch(), [true, true, true]),
                           ProxyStart(c.leaderListen, ProxyUpstream, true)]
  {
    var ok3 := [true, true, true];
    Kube.LeaderPatchEffect(s.service, c.hostname);
    assert Redis.Outcome(ok3, 1) == Redis.Committed;
    assert Redis.Outcome(ok3, 2) == Redis.Committed;
    assert Redis.SetReplicaOfOutcome(ok3) == Redis.Committed;
    Redis.ReplicaOfBatchRole(s.store, Redis.PromoteHost, Redis.PromotePort, ok3);
    Redis.PromoteMakesPrimary(s.store);
  }

  /** A new leader other than self, every command acknowledged: the node replicates it. */
  lemma NewLeaderAllOk(c: Config, s: State, identity: string)
    requires identity != c.hostname
    ensures var t := AfterNewLeader(c, s, identity, [true, true, true]);
      && t.store.role == Redis.ReplicaOf(PodDNS(c, identity), c.redisPortStr)
      && t.relay == s.relay && t.service == s.service
      && t.cancelled == s.cancelled && t.exited == s.exited
  {
    var ok3 := [true, true, true];
    assert Redis.Outcome(ok3, 1) == Redis.Committed;
    assert Redis.Outcome(ok3, 2) == Redis.Committed;
    PeerReplication(c, s, identity, ok3);
  }

  /** Two configurations of the same StatefulSet, differing only in their own hostname. */
  predicate SameCluster(c1: Config, c2: Config) {
    && c1.headlessService == c2.headlessService && c1.namespace == c2.namespace
    && c1.clusterDomain == c2.clusterDomain && c1.redisPortStr == c2.redisPortStr
  }

  /** The log holds a patch, accepted by the API server, that points the leader Service at this node. */
  predicate SentAcceptedPatch(c: Config, log: seq<Effect>) {
    PatchService(c.leaderService, Kube.LeaderServicePatch(c.hostname), true) in log
  }

  /** Every command of a setReplicaOf batch acknowledged. */
  const Acked3: seq<bool> := [true, true, true]

  /** What node a sees: it leads, loses the lease, then learns that b leads. */
  const EventsA: seq<Event> := [StartedLeading(true, Acked3, true), StoppedLeading(true), NewLeader("b", Acked3)]

  /** What node b sees: a leads, then b acquires the lease. */
  const EventsB: seq<Event> := [NewLeader("a", Acked3), StartedLeading(true, Acked3, true)]

  /** What node c sees: a leads, then b leads. */
  const EventsC: seq<Event> := [NewLeader("a", Acked3), NewLeader("b", Acked3)]

  /**
   * Three nodes a, b, c. a acquires the lease and serves; b and c replicate
   * a. The lease moves to b: a stops its proxy and replicates b, b becomes
   * the serving primary and sends a patch pointing the leader Service at
   * itself, c replicates b; all three replicate from the same address for b.
   */
  lemma {:induction false} ThreeNodeHandOver(ca: Config, cb: Config, cc: Config,
                                             sa: State, sb: State, sc: State)
    requires ca.hostname == "a" && cb.hostname == "b" && cc.hostname == "c"
    requires SameCluster(ca, cb) && SameCluster(cb, cc)
    requires sa.service.selector.Some? && sb.service.selector.Some?
    requires !sa.exited && !sb.exited && !sc.exited
    ensures Run(ca, sa, EventsA).relay == Stopped && !Run(ca, sa, EventsA).exited
    ensures Run(ca, sa, EventsA).store.role == Redis.ReplicaOf(PodDNS(ca, "b"), ca.redisPortStr)
    ensures Run(cb, sb, EventsB).relay == Running && !Run(cb, sb, EventsB).exited
    ensures Run(cb, sb, EventsB).store.role == Redis.Primary
    ensures SentAcceptedPatch(cb, Run(cb, sb, EventsB).log)
    ensures Run(cc, sc, EventsC).relay == sc.relay && !Run(cc, sc, EventsC).exited
    ensures Run(cc, sc, EventsC).store.role == Redis.ReplicaOf(PodDNS(cc, "b"), cc.redisPortStr)
    ensures PodDNS(ca, "b") == PodDNS(cc, "b")
  {
    // node a
    StartedLeadingAllOk(ca, sa);
    var a1: State := Step(ca, sa, EventsA[0]);
    var a2: State := Step(ca, a1, EventsA[1]);
    NewLeaderAllOk(ca, a2, "b");
    var a3: State := Step(ca, a2, EventsA[2]);
    assert EventsA[1..][1..][1..] == [];
    assert Run(ca, a3, []) == a3;
    assert Run(ca, a2, EventsA[1..][1..]) == a3;
    assert Run(ca, a1, EventsA[1..]) == a3;
    // node b
    NewLeaderAllOk(cb, sb, "a");
    var b1: State := Step(cb, sb, EventsB[0]);
    StartedLeadingAllOk(cb, b1);
    var b2: State := Step(cb, b1, EventsB[1]);
    assert b2.log[|b1.log|] == PatchService(cb.leaderService, Kube.LeaderServicePatch(cb.hostname), true);
    assert EventsB[1..][1..] == [];
    assert Run(cb, b2, []) == b2;
    assert Run(cb, b1, EventsB[1..]) == b2;
    // node c
    NewLeaderAllOk(cc, sc, "a");
    var c1: State := Step(cc, sc, EventsC[0]);
    NewLeaderAllOk(cc, c1, "b");
    var c2: State := Step(cc, c1, EventsC[1]);
    assert EventsC[1..][1..] == [];
    assert Run(cc, c2, []) == c2;
    assert Run(cc, c1, EventsC[1..]) == c2;
  }
}
