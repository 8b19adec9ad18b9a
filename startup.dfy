/**
 * Startup validation in `main`: the required-flag set pruned by the flags
 * that were explicitly given, the two port range checks, the derived port
 * string and leader listen address, and the trimming of the namespace text.
 */
module Startup {
  import opened Common
  import Decimal

  /** Go's `uint` on a 64-bit platform; flag.Parse refuses anything wider. */
  type Uint = x: nat | x < 0x1_0000_0000_0000_0000

  /** The flags that must be given explicitly, whatever their value. */
  const RequiredFlags: set<string> := {"leader-service", "lock", "headless-service"}

  /** The parsed values of the sidecar's own flags. */
  datatype Flags = Flags(
    leaderService: string,
    lock: string,
    redisPort: Uint,
    leaderPort: Uint,
    clusterDomain: string,
    headlessService: string)

  /** Everything startup hands on to the election callbacks. */
  datatype Settings = Settings(
    leaderService: string,
    lock: string,
    redisPort: nat,
    redisPortStr: string,
    leaderPort: nat,
    leaderListen: string,
    clusterDomain: string,
    headlessService: string)

  /**
   * What a successful startup guarantees about its settings: both ports are
   * in range and the two strings derived from them spell those ports.
   */
  predicate ValidSettings(s: Settings) {
    && 1 <= s.redisPort <= 65535
    && 1 <= s.leaderPort <= 65535
    && s.redisPortStr == Decimal.FormatUint(s.redisPort)
    && s.leaderListen == ListenAddress(s.leaderPort)
  }

  /** The fatal startup conditions, in the order they are checked. */
  datatype StartupError = MissingFlag(name: string) | InvalidRedisPort | InvalidLeaderPort

  /** The `<= 0 || > 0xFFFF` guard, negated. */
  predicate ValidPort(p: Uint) {
    !(p <= 0 || p > 0xFFFF)
  }

  /** The leader proxy's listen address: a colon and the decimal port, any interface. */
  function ListenAddress(port: nat): (a: string)
    ensures |a| >= 2 && a[0] == ':'
    ensures Decimal.Canonical(a[1..]) && Decimal.ParseDecimal(a[1..]) == port
  {
    Decimal.ParseFormat(port);
    var a := ":" + Decimal.FormatUint(port);
    assert a[1..] == Decimal.FormatUint(port);
    a
  }

  /** Two ports share a listen address only when they are the same port. */
  lemma ListenAddressInjective(p: nat, q: nat)
    requires ListenAddress(p) == ListenAddress(q)
    ensures p == q
  {
    assert ListenAddress(p)[1..] == ListenAddress(q)[1..];
  }

  /**
   * The flag.Visit loop: start from the required set and delete the name of
   * every flag that was given; what is left is missing.
   */
  method PruneRequired(visited: seq<string>) returns (missing: set<string>)
    ensures forall n :: n in missing <==> n in RequiredFlags && n !in visited
  {
    missing := RequiredFlags;
    for i := 0 to |visited|
      invariant forall n :: n in missing <==> n in RequiredFlags && n !in visited[..i]
    {
      missing := missing - {visited[i]};
    }
    assert visited[..|visited|] == visited;
  }

  /**
   * Startup validation as `main` runs it: missing required flags first (one
   * of them is reported, which one depends on map iteration order), then the
   * Redis port, then the leader port. Success yields the settings the
   * callbacks use; any failure is fatal before the cluster or Redis is contacted.
   */
  method Startup(flags: Flags, visited: seq<string>) returns (r: Result<Settings, StartupError>)
    ensures r.Ok? <==>
              && (forall n :: n in RequiredFlags ==> n in visited)
              && 1 <= flags.redisPort <= 65535
              && 1 <= flags.leaderPort <= 65535
    ensures (exists n :: n in RequiredFlags && n !in visited) ==>
              r.Err? && r.error.MissingFlag? && r.error.name in RequiredFlags && r.error.name !in visited
    ensures (forall n :: n in RequiredFlags ==> n in visited) && !(1 <= flags.redisPort <= 65535) ==>
              r == Err(InvalidRedisPort)
    ensures (forall n :: n in RequiredFlags ==> n in visited) && 1 <= flags.redisPort <= 65535
            && !(1 <= flags.leaderPort <= 65535) ==>
              r == Err(InvalidLeaderPort)
    ensures r.Ok? ==>
              && r.value.leaderService == flags.leaderService
              && r.value.lock == flags.lock
              && r.value.clusterDomain == flags.clusterDomain
              && r.value.headlessService == flags.headlessService
              && r.value.redisPort == flags.redisPort
              && r.value.redisPortStr == Decimal.FormatUint(flags.redisPort)
              && Decimal.ParseDecimal(r.value.redisPortStr) == flags.redisPort
              && r.value.leaderPort == flags.leaderPort
              && r.value.leaderListen == ListenAddress(flags.leaderPort)
    ensures r.Ok? ==> ValidSettings(r.value)
  {
    var missing := PruneRequired(visited);
    if missing != {} {
      var n :| n in missing;
      return Err(MissingFlag(n));
    }
    if !ValidPort(flags.redisPort) {
      return Err(InvalidRedisPort);
    }
    var redisPortStr := Decimal.FormatUint(flags.redisPort);
    Decimal.ParseFormat(flags.redisPort);
    if !ValidPort(flags.leaderPort) {
      return Err(InvalidLeaderPort);
    }
    var leaderListen := ListenAddress(flags.leaderPort);
    return Ok(Settings(flags.leaderService, flags.lock, flags.redisPort, redisPortStr,
                       flags.leaderPort, leaderListen, flags.clusterDomain, flags.headlessService));
  }

  /** unicode.IsSpace, which strings.TrimSpace uses. */
  predicate IsSpace(c: char) {
    var x := c as int;
    || x == 0x09 || x == 0x0A || x == 0x0B || x == 0x0C || x == 0x0D || x == 0x20
    || x == 0x85 || x == 0xA0 || x == 0x1680 || (0x2000 <= x <= 0x200A)
    || x == 0x2028 || x == 0x2029 || x == 0x202F || x == 0x205F || x == 0x3000
  }

  /** Drop leading white space. */
  function TrimLeft(s: string): (r: string)
    ensures |r| <= |s| && r == s[|s| - |r|..]
    ensures forall k :: 0 <= k < |s| - |r| ==> IsSpace(s[k])
    ensures |r| > 0 ==> !IsSpace(r[0])
  {
    if |s| > 0 && IsSpace(s[0]) then TrimLeft(s[1..]) else s
  }

  /** Drop trailing white space. */
  function TrimRight(s: string): (r: string)
    ensures |r| <= |s| && r == s[..|r|]
    ensures forall k :: |r| <= k < |s| ==> IsSpace(s[k])
    ensures |r| > 0 ==> !IsSpace(r[|r| - 1])
  {
    if |s| > 0 && IsSpace(s[|s| - 1]) then TrimRight(s[..|s| - 1]) else s
  }

  /**
   * strings.TrimSpace, applied to the namespace file's text: the longest
   * infix between leading and trailing white space.
   */
  function TrimSpace(s: string): (r: string)
    ensures exists i, j :: 0 <= i <= j <= |s| && r == s[i..j]
              && (forall k :: 0 <= k < i ==> IsSpace(s[k]))
              && (forall k :: j <= k < |s| ==> IsSpace(s[k]))
    ensures |r| > 0 ==> !IsSpace(r[0]) && !IsSpace(r[|r| - 1])
  {
    var l := TrimLeft(s);
    var r := TrimRight(l);
    var i := |s| - |l|;
    assert r == s[i..i + |r|];
    r
  }

  /** Trimming an already trimmed namespace changes nothing. */
  lemma TrimSpaceIdempotent(s: string)
    ensures TrimSpace(TrimSpace(s)) == TrimSpace(s)
  {
    var r := TrimSpace(s);
    assert TrimLeft(r) == r;
    assert TrimRight(r) == r;
  }
}
