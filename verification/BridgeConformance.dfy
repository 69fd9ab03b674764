/** The bridge conformance harness: the replay check, the extension and credential checks
    and the search for a name that nobody declared. */
module BridgeConformance {
  import opened Wrappers

  // -------------------------------------------------------------------------
  // Replay
  // -------------------------------------------------------------------------

  datatype Event =
    | SyncStart(snapshot: string, remote: string)
    | SyncComplete(manifest: Manifest)
    | DeviceUpserted
    | StateChanged
    | OtherEvent

  datatype Manifest = Manifest(snapshot: string, devices: nat, states: nat)

  datatype Envelope = Envelope(epoch: string, seqNo: int, event: Event)

  /** What the stream yields: an envelope, something the schema refuses, or an error. */
  datatype Item = Parsed(envelope: Envelope) | Malformed | Thrown

  /** What the adapter's author expects; an identity is a string or a pattern. */
  datatype Expectation = Expectation(epoch: string -> bool, snapshot: string -> bool, remote: string -> bool,
                                     devices: nat, states: nat)

  function Devices(items: seq<Item>): nat {
    if items == [] then 0
    else Devices(items[..|items| - 1]) + if items[|items| - 1].Parsed?
         && items[|items| - 1].envelope.event.DeviceUpserted? then 1 else 0
  }

  function States(items: seq<Item>): nat {
    if items == [] then 0
    else States(items[..|items| - 1]) + if items[|items| - 1].Parsed?
         && items[|items| - 1].envelope.event.StateChanged? then 1 else 0
  }

  /** The i-th envelope of a replay: numbered from one, in the expected epoch. */
  predicate InOrder(items: seq<Item>, i: nat, x: Expectation)
    requires i < |items|
  {
    items[i].Parsed? && items[i].envelope.seqNo == i + 1 && x.epoch(items[i].envelope.epoch)
  }

  function EventAt(items: seq<Item>, i: nat): Event
    requires i < |items|
  {
    if items[i].Parsed? then items[i].envelope.event else OtherEvent
  }

  predicate Starts(e: Event, x: Expectation) {
    e.SyncStart? && x.snapshot(e.snapshot) && x.remote(e.remote)
  }

  /** The first `n` envelopes are in order; one sync-start stands at the front and none of
      them completes the replay. */
  predicate Opens(items: seq<Item>, n: nat, x: Expectation)
    requires n <= |items|
  {
    && (forall i :: 0 <= i < n ==> InOrder(items, i, x))
    && (n > 0 ==> Starts(EventAt(items, 0), x))
    && (forall i :: 0 < i < n ==> !EventAt(items, i).SyncStart?)
    && (forall i :: 0 <= i < n ==> !EventAt(items, i).SyncComplete?)
  }

  /** A replay that is complete after `n` envelopes: it opens well, the n-th is its first
      sync-complete, and the manifest counts what was seen, which is what was expected. */
  predicate Completes(items: seq<Item>, n: nat, x: Expectation)
    requires 0 < n <= |items|
  {
    && Opens(items, n - 1, x) && n > 1 && InOrder(items, n - 1, x)
    && var e := EventAt(items, n - 1);
       e.SyncComplete? && x.snapshot(e.manifest.snapshot)
       && e.manifest.devices == Devices(items[..n]) == x.devices
       && e.manifest.states == States(items[..n]) == x.states
  }

  /** The check is exact: it succeeds if and only if some prefix within the limit is a
      complete replay. */
  method CheckReplay(items: seq<Item>, x: Expectation, configured: Option<int>) returns (ok: bool)
    ensures var maximum := if configured.Some? then configured.value else 1_024;
            ok <==> maximum >= 1 && exists n :: 0 < n <= |items| && n <= maximum && Completes(items, n, x)
  {
    var maximum := if configured.Some? then configured.value else 1_024;
    if maximum < 1 {
      return false;
    }
    var nextSeq, devices, states, started, seen := 1, 0, 0, false, 0;
    while seen < |items|
      invariant 0 <= seen <= |items| && seen <= maximum && nextSeq == seen + 1
      invariant Opens(items, seen, x) && (started <==> seen > 0)
      invariant devices == Devices(items[..seen]) && states == States(items[..seen])
    {
      var candidate := items[seen];
      ghost var at := seen;
      assert items[..seen + 1][..seen] == items[..seen];
      seen := seen + 1;
      if seen > maximum {
        OpensOnly(items, at, x);
        return false;
      }
      if !candidate.Parsed? || !x.epoch(candidate.envelope.epoch) || candidate.envelope.seqNo != nextSeq {
        StopsAt(items, at, x);
        return false;
      }
      nextSeq := nextSeq + 1;
      var event := candidate.envelope.event;
      if !started {
        if !event.SyncStart? || !x.snapshot(event.snapshot) || !x.remote(event.remote) {
          StopsAt(items, at, x);
          return false;
        }
        started := true;
      } else if event.SyncStart? {
        StopsAt(items, at, x);
        return false;
      }
      if event.DeviceUpserted? {
        devices := devices + 1;
      }
      if event.StateChanged? {
        states := states + 1;
      }
      if event.SyncComplete? {
        ok := x.snapshot(event.manifest.snapshot) && event.manifest.devices == devices
        && event.manifest.states == states
              && devices == x.devices && states == x.states;
        FirstCompletion(items, seen, x);
        assert ok <==> Completes(items, seen, x);
        return ok;
      }
    }
    OpensOnly(items, seen, x);
    return false;
  }

  /** While a replay is still open, no shorter prefix completes it. */
  lemma OpensOnly(items: seq<Item>, n: nat, x: Expectation)
    requires n <= |items| && Opens(items, n, x)
    ensures forall m :: 0 < m <= n ==> !Completes(items, m, x)
  {}

  /** An envelope out of order, or a sync-start out of place, completes nothing ever. */
  lemma StopsAt(items: seq<Item>, n: nat, x: Expectation)
    requires n < |items| && Opens(items, n, x)
    requires !InOrder(items, n, x) || (n == 0 && !Starts(EventAt(items, 0), x))
             || (n > 0 && EventAt(items, n).SyncStart?)
    ensures forall m :: 0 < m <= |items| ==> !Completes(items, m, x)
  {
    OpensOnly(items, n, x);
  }

  /** The first sync-complete decides. */
  lemma FirstCompletion(items: seq<Item>, n: nat, x: Expectation)
    requires 1 < n <= |items| && Opens(items, n - 1, x) && InOrder(items, n - 1, x)
             && EventAt(items, n - 1).SyncComplete?
    ensures forall m :: 0 < m <= |items| && m != n ==> !Completes(items, m, x)
  {
    OpensOnly(items, n - 1, x);
  }

  // -------------------------------------------------------------------------
  // Extensions
  // -------------------------------------------------------------------------

  function Grown(name: string, k: nat): string {
    if k == 0 then name else Grown(name, k - 1) + "_x"
  }

  /** The n-th name of the growing series is the first one that is not declared. */
  ghost predicate FirstUndeclared(declared: set<string>, name: string, n: nat) {
    Grown(name, n) !in declared && forall m :: 0 <= m < n ==> Grown(name, m) in declared
  }

  /** Grows a name until nobody declared it: at most one step per declared name. */
  method FreshName(declared: set<string>, name: string) returns (unused: string)
    ensures unused !in declared
    ensures exists n: nat :: n <= |declared| && unused == Grown(name, n) && FirstUndeclared(declared, name, n)
  {
    unused := name;
    ghost var steps: nat := 0;
    ghost var tried: set<string> := {};
    while unused in declared
      invariant unused == Grown(name, steps) && tried <= declared && |tried| == steps
      invariant forall s :: s in tried ==> |s| < |unused|
      invariant forall m :: 0 <= m < steps ==> Grown(name, m) in declared
      decreases declared - tried
    {
      tried := tried + {unused};
      unused := unused + "_x";
      steps := steps + 1;
    }
    Fits(tried, declared);
    assert FirstUndeclared(declared, name, steps);
  }

  lemma Fits<T>(a: set<T>, b: set<T>)
    requires a <= b
    ensures |a| <= |b|
  {
    assert b == a + (b - a);
  }

  const PROBE := "conformance-unknown@999"

  /** The declared extensions are the expected ones, each available exactly when expected,
      and the first name of the series that nobody declared is not available. */
  method CheckExtensionHandles(declared: seq<string>, available: string -> bool, expected: map<string, bool>)
    returns (ok: bool)
    ensures ok <==> && (forall k :: k in declared <==> k in expected)
                    && (forall k :: k in expected ==> available(k) == expected[k])
                    && (exists n: nat :: FirstUndeclared((set k | k in declared), PROBE, n)
                                         && !available(Grown(PROBE, n)))
  {
    var keys: set<string> := {};
    var i := 0;
    while i < |declared|
      invariant 0 <= i <= |declared| && keys == set k | k in declared[..i]
      invariant forall k :: k in declared[..i] ==> k in expected && available(k) == expected[k]
    {
      var key := declared[i];
      assert declared[..i + 1] == declared[..i] + [key];
      assert key in declared;
      if key !in expected || available(key) != expected[key] {
        return false;
      }
      keys := keys + {key};
      i := i + 1;
    }
    assert declared[..i] == declared;
    if exists k :: k in expected && k !in keys {
      return false;
    }
    var unused := FreshName(keys, PROBE);
    ghost var steps: nat :| unused == Grown(PROBE, steps) && FirstUndeclared(keys, PROBE, steps);
    OneFirst(keys, PROBE, steps);
    return !available(unused);
  }

  lemma OneFirst(declared: set<string>, name: string, n: nat)
    requires FirstUndeclared(declared, name, n)
    ensures forall m: nat :: FirstUndeclared(declared, name, m) ==> m == n
  {}

  // -------------------------------------------------------------------------
  // Credential scope
  // -------------------------------------------------------------------------

  datatype Requirement = Requirement(alias: string, kind: string)

  /** What the credential scope resolves; `Unreadable` covers exceptions and what the schema refuses. */
  datatype Material = Absent | Unreadable | Material(kind: string)

  /** What the scope answers: whether an alias is configured (`None` for an exception or
      an answer that is not a boolean) and its material. */
  datatype Scope = Scope(describe: string -> Option<bool>, resolve: string -> Material)

  predicate Satisfies(scope: Scope, r: Requirement) {
    scope.describe(r.alias).Some?
    && (scope.resolve(r.alias) == Absent || scope.resolve(r.alias) == Material.Material(r.kind))
  }

  function Aliases(rs: seq<Requirement>): set<string> {
    set r | r in rs :: r.alias
  }

  lemma AliasesOn(rs: seq<Requirement>, i: nat)
    requires i < |rs|
    ensures Aliases(rs[..i + 1]) == Aliases(rs[..i]) + {rs[i].alias} && rs[i] in rs
    ensures rs[i].alias in Aliases(rs[..i]) ==> exists j :: 0 <= j < i && rs[j].alias == rs[i].alias
    ensures rs[i].alias !in Aliases(rs[..i]) ==> forall j :: 0 <= j < i ==> rs[j].alias != rs[i].alias
  {
    assert rs[..i + 1] == rs[..i] + [rs[i]];
    assert forall j :: 0 <= j < i ==> rs[j] in rs[..i];
  }

  lemma AliasesNone(rs: seq<Requirement>)
    ensures Aliases(rs[..0]) == {}
  {}

  const UNKNOWN_ALIAS := "__conformance_unknown__"

  /** The required aliases are distinct, each one's material is absent or of its kind, and
      the first alias of the series that nobody requires is neither configured nor present. */
  method CheckCredentialScope(requirements: seq<Requirement>, scope: Scope) returns (ok: bool)
    ensures ok <==> && (forall i, j :: 0 <= i < j < |requirements| ==> requirements[i].alias != requirements[j].alias)
                    && (forall r :: r in requirements ==> Satisfies(scope, r))
                    && (exists n: nat :: FirstUndeclared(Aliases(requirements), UNKNOWN_ALIAS, n)
                                         && scope.describe(Grown(UNKNOWN_ALIAS, n)) == Some(false)
                                         && scope.resolve(Grown(UNKNOWN_ALIAS, n)) == Absent)
  {
    hide Aliases, FirstUndeclared, Grown;
    AliasesNone(requirements);
    var aliases: set<string> := {};
    var i := 0;
    while i < |requirements|
      invariant 0 <= i <= |requirements| && aliases == Aliases(requirements[..i])
      invariant forall j, k :: 0 <= j < k < i ==> requirements[j].alias != requirements[k].alias
      invariant forall j :: 0 <= j < i ==> Satisfies(scope, requirements[j])
    {
      var r := requirements[i];
      AliasesOn(requirements, i);
      if r.alias in aliases {
        return false;
      }
      aliases := aliases + {r.alias};
      if scope.describe(r.alias).None? {
        return false;
      }
      var material := scope.resolve(r.alias);
      if material != Absent && (material.Unreadable? || material.kind != r.kind) {
        return false;
      }
      i := i + 1;
    }
    assert requirements[..i] == requirements;
    var unused := FreshName(aliases, UNKNOWN_ALIAS);
    ghost var steps: nat :| unused == Grown(UNKNOWN_ALIAS, steps) && FirstUndeclared(aliases, UNKNOWN_ALIAS, steps);
    OneFirst(aliases, UNKNOWN_ALIAS, steps);
    return scope.describe(unused) == Some(false) && scope.resolve(unused) == Absent;
  }
}
