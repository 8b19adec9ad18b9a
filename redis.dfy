/**
 * The role-change batch `setReplicaOf` queues in one MULTI/EXEC
 * transaction, the outcome the transaction reports to its caller, and what
 * the acknowledged commands do to the local Redis server.
 */
module Redis {

  /** A command the sidecar queues on its Redis connection. */
  datatype Command =
    | SlaveOf(host: string, port: string)      // SLAVEOF host port
    | ClientKill(filter: string, value: string) // CLIENT KILL filter value

  /** The replication role of a Redis server. */
  datatype Role = Primary | ReplicaOf(host: string, port: string)

  /** The part of a Redis server the batch touches: its role and the kinds of clients connected. */
  datatype Store = Store(role: Role, clients: set<string>)

  /** The outcome the transaction reports: success, or the first failed command. */
  datatype TxOutcome = Committed | Failed(index: nat)

  /** The host and port `setReplicaOf` is given to promote the server. */
  const PromoteHost := "NO"
  const PromotePort := "ONE"

  /** The client kinds the batch disconnects. */
  const NormalClients := "normal"
  const PubSubClients := "pubsub"

  function Lower(c: char): char {
    if 'A' <= c <= 'Z' then (c as int + 32) as char else c
  }

  /** ASCII case-insensitive equality, as Redis compares keywords. */
  predicate EqualFold(a: string, b: string) {
    |a| == |b| && forall i :: 0 <= i < |a| ==> Lower(a[i]) == Lower(b[i])
  }

  /** The role SLAVEOF host port gives a server: NO ONE, in any case, makes it a primary. */
  function RoleFor(host: string, port: string): Role {
    if EqualFold(host, "no") && EqualFold(port, "one") then Primary else ReplicaOf(host, port)
  }

  /** What one command does to the server when it runs. */
  function Exec(st: Store, c: Command): Store {
    match c
    case SlaveOf(h, p) => st.(role := RoleFor(h, p))
    case ClientKill(f, v) =>
      if EqualFold(f, "type") then st.(clients := set k | k in st.clients && !EqualFold(k, v)) else st
  }

  /** Whether the i-th queued command was acknowledged; a command with no reply failed. */
  predicate Acked(replies: seq<bool>, i: nat) {
    i < |replies| && replies[i]
  }

  /**
   * The server after a transaction: each command took effect exactly when it
   * was acknowledged (EXEC runs every queued command; one that errs has no effect).
   */
  function ApplyTx(st: Store, cmds: seq<Command>, replies: seq<bool>): Store
    decreases |cmds|
  {
    if cmds == [] then st
    else
      var next := if Acked(replies, 0) then Exec(st, cmds[0]) else st;
      ApplyTx(next, cmds[1..], if replies == [] then [] else replies[1..])
  }

  /**
   * What the pipelined transaction returns for its first n commands: the
   * first command that failed, or success when none did.
   */
  function Outcome(replies: seq<bool>, n: nat): (r: TxOutcome)
    ensures r.Committed? <==> forall i :: 0 <= i < n ==> Acked(replies, i)
    ensures r.Failed? ==> r.index < n && !Acked(replies, r.index)
                          && forall i :: 0 <= i < r.index ==> Acked(replies, i)
  {
    if n == 0 then Committed
    else
      match Outcome(replies, n - 1)
      case Failed(i) => Failed(i)
      case Committed => if Acked(replies, n - 1) then Committed else Failed(n - 1)
  }

  /**
   * setReplicaOf's command list: point replication at host/port, then drop
   * the normal and pub/sub clients so that they reconnect (Redis spares the
   * connection that sends the kill, which this model does not represent).
   */
  function ReplicaOfBatch(host: string, port: string): seq<Command> {
    [SlaveOf(host, port), ClientKill("TYPE", NormalClients), ClientKill("TYPE", PubSubClients)]
  }

  /** The transaction outcome setReplicaOf returns to its caller. */
  function SetReplicaOfOutcome(replies: seq<bool>): TxOutcome {
    Outcome(replies, |ReplicaOfBatch("", "")|)
  }

  /**
   * The batch holds exactly one SLAVEOF, first, aimed at host and port, and
   * executed in full it gives the server the role for host/port and removes
   * the normal and pub/sub client kinds, every other client kind untouched.
   */
  lemma ReplicaOfBatchEffect(st: Store, host: string, port: string)
    ensures var b := ReplicaOfBatch(host, port);
      && |b| == 3 && b[0] == SlaveOf(host, port)
      && (forall i :: 0 < i < |b| ==> b[i].ClientKill?)
      && ApplyTx(st, b, [true, true, true]).role == RoleFor(host, port)
      && (forall k :: k in ApplyTx(st, b, [true, true, true]).clients <==>
            k in st.clients && !EqualFold(k, NormalClients) && !EqualFold(k, PubSubClients))
  {
    var b := ReplicaOfBatch(host, port);
    var s1 := Exec(st, b[0]);
    var s2 := Exec(s1, b[1]);
    var s3 := Exec(s2, b[2]);
    assert EqualFold("TYPE", "type") by {
      assert Lower('T') == 't' && Lower('Y') == 'y' && Lower('P') == 'p' && Lower('E') == 'e';
    }
    assert ApplyTx(s3, [], []) == s3;
    assert ApplyTx(s2, b[2..], [true]) == s3;
    assert ApplyTx(s1, b[1..], [true, true]) == s3;
  }

  /** Promotion is the batch for host NO and port ONE: it makes the server a primary. */
  lemma PromoteMakesPrimary(st: Store)
    ensures RoleFor(PromoteHost, PromotePort) == Primary
    ensures ApplyTx(st, ReplicaOfBatch(PromoteHost, PromotePort), [true, true, true]).role == Primary
  {
    assert EqualFold(PromoteHost, "no") by {
      assert Lower('N') == 'n' && Lower('O') == 'o';
    }
    assert EqualFold(PromotePort, "one") by {
      assert Lower('O') == 'o' && Lower('N') == 'n' && Lower('E') == 'e';
    }
    ReplicaOfBatchEffect(st, PromoteHost, PromotePort);
  }

  /** A host containing a dot is never read as NO, so it always names a replication source. */
  lemma DottedHostIsReplica(host: string, port: string)
    requires '.' in host
    ensures RoleFor(host, port) == ReplicaOf(host, port)
  {
  }

  /** A failure injected at any one step of the batch makes setReplicaOf report failure. */
  lemma AnyFailedStepFails(replies: seq<bool>, step: nat)
    requires step < |ReplicaOfBatch("", "")|
    requires !Acked(replies, step)
    ensures SetReplicaOfOutcome(replies).Failed?
    ensures SetReplicaOfOutcome(replies).index <= step
  {
  }

  /**
   * setReplicaOf reports failure while the server has already switched role:
   * SLAVEOF acknowledged, the first CLIENT KILL failed.
   */
  lemma PartialFailureSwitchesRole(st: Store, host: string, port: string)
    ensures SetReplicaOfOutcome([true, false, true]) == Failed(1)
    ensures ApplyTx(st, ReplicaOfBatch(host, port), [true, false, true]).role == RoleFor(host, port)
  {
    assert Outcome([true, false, true], 1) == Committed;
    assert Outcome([true, false, true], 2) == Failed(1);
    var b := ReplicaOfBatch(host, port);
    var s1 := Exec(st, b[0]);
    var s3 := Exec(s1, b[2]);
    assert ApplyTx(s3, [], []) == s3;
    assert ApplyTx(s1, b[2..], [true]) == s3;
    assert ApplyTx(s1, b[1..], [false, true]) == s3;
  }

  /**
   * Whatever the replies, the batch leaves the server in the role for
   * host/port exactly when SLAVEOF was acknowledged, and in its old role
   * otherwise: the two CLIENT KILL commands never change the role.
   */
  lemma ReplicaOfBatchRole(st: Store, host: string, port: string, replies: seq<bool>)
    ensures ApplyTx(st, ReplicaOfBatch(host, port), replies).role ==
              if Acked(replies, 0) then RoleFor(host, port) else st.role
  {
    var b := ReplicaOfBatch(host, port);
    var r1 := if replies == [] then [] else replies[1..];
    var r2 := if r1 == [] then [] else r1[1..];
    var r3 := if r2 == [] then [] else r2[1..];
    var s1 := if Acked(replies, 0) then Exec(st, b[0]) else st;
    var s2 := if Acked(r1, 0) then Exec(s1, b[1]) else s1;
    var s3 := if Acked(r2, 0) then Exec(s2, b[2]) else s2;
    assert s3.role == s1.role;
    assert ApplyTx(s3, [], r3) == s3;
    assert ApplyTx(s2, b[2..], r2) == s3;
    assert ApplyTx(s1, b[1..], r1) == s3;
  }
}
