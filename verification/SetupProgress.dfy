/** Where setup can go from any draft it can reach: on to the map step, or nowhere. And
    what the map step, from which activation commits, keeps. */
module SetupProgress {
  import opened Wrappers
  import opened SetupDrafts
  import opened SetupRuns

  // -------------------------------------------------------------------------
  // The three owners of a draft
  // -------------------------------------------------------------------------

  datatype Party = Models | Bridges | Voices

  function Queues(d: Draft, o: Party): Pending {
    match o
    case Models => d.models
    case Bridges => d.bridges
    case Voices => d.voices
  }

  function WithQueues(d: Draft, o: Party, p: Pending): Draft {
    match o
    case Models => d.(models := p)
    case Bridges => d.(bridges := p)
    case Voices => d.(voices := p)
  }

  function AckOp(o: Party, l: Lease, staged: bool): Op {
    match o
    case Models => AckModel(l, staged)
    case Bridges => AckBridge(l, staged)
    case Voices => AckVoice(l, staged)
  }

  function RecoverOp(o: Party): Op {
    match o
    case Models => RecoverModels
    case Bridges => RecoverBridges
    case Voices => RecoverVoices
  }

  // -------------------------------------------------------------------------
  // A draft that can never go on
  // -------------------------------------------------------------------------

  /** At the model step with model evidence: no lease is handed out any more. */
  predicate Stranded(d: Draft) {
    d.step == Model && d.model.Some?
  }

  predicate Stuck(s: Option<Stored>) {
    s.Some? && Stranded(s.value.draft)
  }

  lemma StuckCall(s: Option<Stored>, c: Call)
    requires Stuck(s)
    ensures Stuck(After(s, c)) && After(s, c).value.draft.model == s.value.draft.model
  {
    if c.Request? && Valid(s.value.draft) {
      NoLeaseLeft(s.value.draft);
      StuckOp(s.value.draft, c.op);
    }
    hide Valid, Perform;
  }

  lemma NoLeaseLeft(d: Draft)
    requires Valid(d) && Stranded(d)
    ensures d.models.staging == []
  {
    hide GoodNames, ValidPending, Evident;
  }

  lemma StuckOp(d: Draft, op: Op)
    requires Stranded(d) && d.models.staging == []
    ensures Perform(d, op).Ok? ==> Stranded(Perform(d, op).value) && Perform(d, op).value.model == d.model
  {
    hide AppendCleanup, Without;
  }

  /** No run whatever leaves that state. */
  lemma {:induction false} StuckForever(s: Option<Stored>, calls: seq<Call>)
    requires Stuck(s)
    ensures Stuck(AfterAll(s, calls)) && AfterAll(s, calls).value.draft.model == s.value.draft.model
    decreases |calls|
  {
    hide Stuck, After;
    if calls != [] {
      StuckCall(s, calls[0]);
      StuckForever(After(s, calls[0]), calls[1..]);
    }
  }

  // -------------------------------------------------------------------------
  // Every other draft that can be reached
  // -------------------------------------------------------------------------

  /** Evidence is collected in the order of the steps. */
  predicate InOrder(d: Draft) {
    Stranded(d)
    || ((d.step == Identity || d.step == Model ==> d.model.None?) && (AtLeast(d.step, Voice) || d.bridge.None?))
  }

  lemma OrderKept(d: Draft, op: Op)
    requires Valid(d) && InOrder(d)
    ensures Perform(d, op).Ok? ==> InOrder(Perform(d, op).value)
  {
    hide AppendCleanup, Without, ValidPending, Evident, Holds;
  }

  predicate StoreInOrder(s: Option<Stored>) {
    s.Some? ==> InOrder(s.value.draft)
  }

  lemma CallKeepsOrder(s: Option<Stored>, c: Call)
    requires StoreInOrder(s)
    ensures StoreInOrder(After(s, c))
  {
    if s.Some? && c.Request? && Valid(s.value.draft) {
      OrderKept(s.value.draft, c.op);
    }
    hide Valid, Perform, InOrder;
    FirstInOrder();
  }

  lemma FirstInOrder()
    ensures InOrder(FirstDraft)
  {}

  lemma {:induction false} RunKeepsOrder(s: Option<Stored>, calls: seq<Call>)
    requires StoreInOrder(s)
    ensures StoreInOrder(AfterAll(s, calls))
    decreases |calls|
  {
    hide StoreInOrder, After;
    if calls != [] {
      CallKeepsOrder(s, calls[0]);
      RunKeepsOrder(After(s, calls[0]), calls[1..]);
    }
  }

  // -------------------------------------------------------------------------
  // Operations that go through
  // -------------------------------------------------------------------------

  /** Each operation keeps the hypotheses and is performed. */
  ghost predicate GoThrough(d: Draft, ops: seq<Op>)
    decreases |ops|
  {
    ops == []
    || (Fresh(d, ops[0]) && Safe(d, ops[0]) && Perform(d, ops[0]).Ok? && GoThrough(Perform(d, ops[0]).value, ops[1..]))
  }

  lemma {:induction false} GoOn(d: Draft, first: seq<Op>, second: seq<Op>)
    requires GoThrough(d, first) && GoThrough(PerformAll(d, first), second)
    ensures GoThrough(d, first + second) && PerformAll(d, first + second) == PerformAll(PerformAll(d, first), second)
    decreases |first|
  {
    hide Perform, Fresh, Safe;
    if first == [] {
      assert [] + second == second;
    } else {
      assert (first + second)[1..] == first[1..] + second;
      GoOn(Perform(d, first[0]).value, first[1..], second);
    }
  }

  lemma OneStep(d: Draft, op: Op)
    requires Fresh(d, op) && Safe(d, op) && Perform(d, op).Ok?
    ensures GoThrough(d, [op]) && PerformAll(d, [op]) == Perform(d, op).value
  {
    hide Perform, Fresh, Safe;
    assert [op][1..] == [];
  }

  // Emptying the queues of one owner

  lemma {:induction false} OnlyFirstGoes(l: Lease, rest: seq<Lease>)
    requires Distinct([l] + rest)
    ensures Without([l] + rest, l) == rest
  {
    var ls := [l] + rest;
    assert ls[1..] == rest;
    forall x | x in rest
      ensures !Same(x, l)
    {
      var i :| 0 <= i < |rest| && rest[i] == x;
      assert ls[i + 1] == x && ls[0] == l;
    }
    NoneGoes(rest, l);
  }

  lemma {:induction false} NoneGoes(ls: seq<Lease>, l: Lease)
    requires forall x :: x in ls ==> !Same(x, l)
    ensures Without(ls, l) == ls
  {
    if ls != [] {
      NoneGoes(ls[1..], l);
    }
  }

  lemma AckFirst(d: Draft, o: Party, l: Lease, rest: seq<Lease>)
    requires Queues(d, o) == Pending([l] + rest, []) && Distinct([l] + rest)
    ensures Perform(d, AckOp(o, l, false)) == Ok(WithQueues(d, o, Pending(rest, [])))
    ensures Fresh(d, AckOp(o, l, false)) && Safe(d, AckOp(o, l, false))
  {
    OnlyFirstGoes(l, rest);
    hide Without;
  }

  lemma QueuesAreDistinct(d: Draft, o: Party)
    requires Sound(d)
    ensures Distinct(Queues(d, o).cleanup)
  {
    SoundParts(d);
    hide Sound;
  }

  lemma QueuesTwice(d: Draft, o: Party, p: Pending, q: Pending)
    ensures WithQueues(WithQueues(d, o, p), o, q) == WithQueues(d, o, q) && Queues(WithQueues(d, o, p), o) == p
    ensures WithQueues(d, o, Queues(d, o)) == d
  {}

  lemma {:induction false} AckAll(d: Draft, o: Party, cleanup: seq<Lease>) returns (ops: seq<Op>)
    requires Queues(d, o) == Pending(cleanup, []) && Distinct(cleanup)
    ensures GoThrough(d, ops) && PerformAll(d, ops) == WithQueues(d, o, Nothing)
    decreases |cleanup|
  {
    hide Queues, WithQueues, Perform, Fresh, Safe, AckOp;
    ops := [];
    if cleanup == [] {
      QueuesTwice(d, o, Nothing, Nothing);
    } else {
      var l, rest := cleanup[0], cleanup[1..];
      assert cleanup == [l] + rest;
      AckFirst(d, o, l, rest);
      OneStep(d, AckOp(o, l, false));
      QueuesTwice(d, o, Pending(rest, []), Nothing);
      var more := AckAll(WithQueues(d, o, Pending(rest, [])), o, rest);
      GoOn(d, [AckOp(o, l, false)], more);
      ops := [AckOp(o, l, false)] + more;
    }
  }

  lemma Recovers(d: Draft, o: Party)
    requires Sound(d)
    ensures var r := Perform(d, RecoverOp(o));
            && r.Ok? && Sound(r.value) && Queues(r.value, o).staging == []
            && r.value == WithQueues(d, o, Queues(r.value, o))
    ensures Fresh(d, RecoverOp(o)) && Safe(d, RecoverOp(o))
  {
    RetireExact(d, RecoverOp(o));
    RecoveredShape(d, o);
    hide Sound, Perform;
  }

  lemma RecoveredShape(d: Draft, o: Party)
    ensures var r := Perform(d, RecoverOp(o));
            r.Ok? ==> Queues(r.value, o).staging == [] && r.value == WithQueues(d, o, Queues(r.value, o))
  {
    hide AppendCleanup;
  }

  lemma Empties(d: Draft, o: Party) returns (ops: seq<Op>)
    requires Sound(d)
    ensures GoThrough(d, ops) && PerformAll(d, ops) == WithQueues(d, o, Nothing) && Sound(WithQueues(d, o, Nothing))
  {
    NothingIsSound(d, o);
    hide *;
    Recovers(d, o);
    OneStep(d, RecoverOp(o));
    var e := Perform(d, RecoverOp(o)).value;
    var p := Queues(e, o);
    assert p == Pending(p.cleanup, []);
    QueuesAreDistinct(e, o);
    var more := AckAll(e, o, p.cleanup);
    GoOn(d, [RecoverOp(o)], more);
    QueuesTwice(d, o, p, Nothing);
    ops := [RecoverOp(o)] + more;
  }

  lemma NothingIsSound(d: Draft, o: Party)
    requires Sound(d)
    ensures Sound(WithQueues(d, o, Nothing))
  {
    hide Evident;
  }

  function Idle(d: Draft): Draft {
    d.(models := Nothing, bridges := Nothing, voices := Nothing)
  }

  /** Everything that is still handed out or queued can be given back. */
  lemma EmptiesAll(d: Draft) returns (ops: seq<Op>)
    requires Sound(d)
    ensures GoThrough(d, ops) && PerformAll(d, ops) == Idle(d) && Sound(Idle(d))
  {
    hide GoThrough, PerformAll, Sound;
    var d1, d2 := WithQueues(d, Models, Nothing), WithQueues(WithQueues(d, Models, Nothing), Bridges, Nothing);
    var a := Empties(d, Models);
    var b := Empties(d1, Bridges);
    var c := Empties(d2, Voices);
    assert WithQueues(d2, Voices, Nothing) == Idle(d);
    GoOn(d1, b, c);
    GoOn(d, a, b + c);
    ops := a + (b + c);
  }

  // -------------------------------------------------------------------------
  // On to the map step
  // -------------------------------------------------------------------------

  /** Credentials that the draft does not own yet. */
  ghost predicate Supply(d: Draft, m: Lease, b: Lease) {
    && Evident(m) && m.ref !in Owned(d)
    && b.ref.kind == BridgeKey && b.details.Words? && b.ref !in Owned(d)
  }

  lemma TakenBack(l: Lease)
    ensures Holds([l], l) && Without([l], l) == [] && [] + [l] == [l] && !Holds([], l)
  {
    TakeLast(l);
  }

  lemma TwoSteps(d: Draft, op1: Op, op2: Op)
    requires Fresh(d, op1) && Safe(d, op1) && Perform(d, op1).Ok?
    requires var f := Perform(d, op1).value; Fresh(f, op2) && Safe(f, op2) && Perform(f, op2).Ok?
    ensures GoThrough(d, [op1, op2]) && PerformAll(d, [op1, op2]) == Perform(Perform(d, op1).value, op2).value
  {
    OneStep(d, op1);
    OneStep(Perform(d, op1).value, op2);
    GoOn(d, [op1], [op2]);
    assert [op1] + [op2] == [op1, op2];
    hide Perform, Fresh, Safe;
  }

  function Modelled(d: Draft, m: Lease): Draft {
    d.(revision := d.revision + 1, step := Bridge, model := Some(m))
  }

  function Bridged(d: Draft, b: Lease): Draft {
    d.(revision := d.revision + 1, step := Voice, bridge := Some(b))
  }

  lemma ModelGoesThrough(d: Draft, m: Lease)
    requires d.step == Model && d.model.None? && Idle(d) == d && Evident(m) && m.ref !in Owned(d)
    ensures GoThrough(d, [ReserveModel(m), RecordModel(m)])
            && PerformAll(d, [ReserveModel(m), RecordModel(m)]) == Modelled(d, m)
  {
    LoadedStays(m);
    TakenBack(m);
    assert Admitted(m) && Strict(m);
    var f := d.(models := Pending([], [m]));
    assert Perform(d, ReserveModel(m)) == Ok(f);
    assert Perform(f, RecordModel(m)) == Ok(Modelled(d, m));
    assert Fresh(d, ReserveModel(m)) && Fresh(f, RecordModel(m));
    hide Perform, Fresh, Evident;
    TwoSteps(d, ReserveModel(m), RecordModel(m));
  }

  lemma BridgeGoesThrough(d: Draft, b: Lease)
    requires d.step == Bridge && d.bridge.None? && Idle(d) == d && b.ref.kind == BridgeKey && b.details.Words?
             && b.ref !in Owned(d)
    ensures GoThrough(d, [ReserveBridge(b), RecordBridge(b)])
            && PerformAll(d, [ReserveBridge(b), RecordBridge(b)]) == Bridged(d, b)
  {
    TakenBack(b);
    var f := d.(bridges := Pending([], [b]));
    assert Perform(d, ReserveBridge(b)) == Ok(f);
    assert Perform(f, RecordBridge(b)) == Ok(Bridged(d, b));
    assert Fresh(d, ReserveBridge(b)) && Fresh(f, RecordBridge(b));
    hide Perform, Fresh;
    TwoSteps(d, ReserveBridge(b), RecordBridge(b));
  }

  /** Skipping voice finds room for the two tracks it may have to queue. */
  lemma SkipGoesThrough(d: Draft)
    requires d.step == Voice && Idle(d) == d
    ensures GoThrough(d, [SkipVoice]) && PerformAll(d, [SkipVoice]).step == Map
  {
    AppendCleanupEffect([], TrackLease(d.asr) + TrackLease(d.tts), None);
    assert Perform(d, SkipVoice).Ok? && Perform(d, SkipVoice).value.step == Map;
    OneStep(d, SkipVoice);
    hide AppendCleanup;
  }

  lemma IdentityGoesThrough(d: Draft)
    requires Sound(d) && d.step == Identity && Idle(d) == d && InOrder(d)
    ensures var ops := [SaveIdentity("home", "agent")];
            && GoThrough(d, ops)
            && var e := PerformAll(d, ops);
               e.step == Model && e.model.None? && e.bridge.None? && Idle(e) == e && Owned(e) == Owned(d)
  {
    hide GoodNames, ValidPending, GoodName, Trim, Evident;
    NamesAreGood();
    OneStep(d, SaveIdentity("home", "agent"));
  }

  lemma BridgeLeftToDo(d: Draft, m: Lease, b: Lease)
    requires b.ref !in Owned(d) && b.ref.kind == BridgeKey && m.ref.kind == ModelKey && d.model.None?
    ensures b.ref !in Owned(Modelled(d, m)) && Modelled(d, m).bridge == d.bridge
            && (Idle(d) == d ==> Idle(Modelled(d, m)) == Modelled(d, m))
  {
    assert forall x :: x in Owned(Modelled(d, m)) ==> x in Owned(d) || x == m.ref;
  }

  lemma EvidentKind(m: Lease)
    ensures Evident(m) ==> m.ref.kind == ModelKey
  {}

  /** From a draft that is not stranded and owes nothing, the remaining steps go through. */
  lemma Finishes(d: Draft, m: Lease, b: Lease) returns (ops: seq<Op>)
    requires Sound(d) && InOrder(d) && !Stranded(d) && Idle(d) == d && Supply(d, m, b)
    ensures GoThrough(d, ops) && PerformAll(d, ops).step == Map
  {
    hide Sound, Perform, PerformAll, GoThrough, Owned, Admitted, Strict;
    var e := d;
    ops := [];
    assert m.ref.kind == ModelKey by {
      EvidentKind(m);
    }
    Nowhere(e);
    if e.step == Identity {
      IdentityGoesThrough(e);
      GoOn(d, ops, [SaveIdentity("home", "agent")]);
      ops := ops + [SaveIdentity("home", "agent")];
      e := PerformAll(d, ops);
    }
    if e.step == Model {
      ModelGoesThrough(e, m);
      BridgeLeftToDo(e, m, b);
      GoOn(d, ops, [ReserveModel(m), RecordModel(m)]);
      ops := ops + [ReserveModel(m), RecordModel(m)];
      e := PerformAll(d, ops);
    }
    if e.step == Bridge {
      BridgeGoesThrough(e, b);
      GoOn(d, ops, [ReserveBridge(b), RecordBridge(b)]);
      ops := ops + [ReserveBridge(b), RecordBridge(b)];
      e := PerformAll(d, ops);
    }
    if e.step == Voice {
      SkipGoesThrough(e);
      GoOn(d, ops, [SkipVoice]);
      ops := ops + [SkipVoice];
    }
  }

  lemma Nowhere(d: Draft)
    ensures GoThrough(d, []) && PerformAll(d, []) == d
  {}

  // -------------------------------------------------------------------------
  // The store
  // -------------------------------------------------------------------------

  predicate FaultFree(calls: seq<Call>) {
    forall c :: c in calls ==> c.fault == Done
  }

  predicate AtMap(s: Option<Stored>) {
    s.Some? && s.value.draft.step == Map
  }

  /** Some sequence of careful calls without a fault ends at the map step. */
  ghost predicate CanFinish(s: Option<Stored>) {
    exists calls :: CarefulRun(s, calls) && FaultFree(calls) && AtMap(AfterAll(s, calls))
  }

  /** The calls of one session for a list of operations. */
  function CallsFor(d: Draft, ops: seq<Op>): seq<Call>
    decreases |ops|
  {
    if ops == [] then []
    else
      var r := Perform(d, ops[0]);
      [Request(ops[0], 0, d.revision, 0, Done)] + CallsFor(if r.Ok? then r.value else d, ops[1..])
  }

  lemma Answered(d: Draft, op: Op)
    requires Valid(d) && Perform(d, op).Ok?
    ensures After(Some(Stored(0, 1, d)),
                  Request(op, 0, d.revision, 0, Done)) == Some(Stored(0, 1, Perform(d, op).value))
  {
    hide Valid, Perform;
  }

  lemma {:induction false} CallsGoThrough(d: Draft, ops: seq<Op>)
    requires Sound(d) && GoThrough(d, ops)
    ensures var s, calls := Some(Stored(0, 1, d)), CallsFor(d, ops);
            CarefulRun(s, calls) && FaultFree(calls) && AfterAll(s, calls) == Some(Stored(0, 1, PerformAll(d, ops)))
    decreases |ops|
  {
    if ops != [] {
      Answered(d, ops[0]);
      WriteReloadsExactly(d, ops[0], Perform(d, ops[0]).value);
      hide Perform, Fresh, Safe, Sound, After;
      var e := Perform(d, ops[0]).value;
      CallsGoThrough(e, ops[1..]);
      var first, rest := Request(ops[0], 0, d.revision, 0, Done), CallsFor(e, ops[1..]);
      assert CallsFor(d, ops) == [first] + rest && ([first] + rest)[1..] == rest;
    }
  }

  lemma Opens(s: Option<Stored>)
    requires SoundStore(s)
    ensures var d := if s.Some? then s.value.draft else FirstDraft;
            After(s, Establish(0, 1, 0, Done)) == Some(Stored(0, 1, d))
    ensures Careful(s, Establish(0, 1, 0, Done))
  {
    hide Valid;
  }

  // A nonce that no owned locator has

  function Zeros(n: nat): (s: string)
    ensures |s| == n && (n > 0 ==> Word(s))
  {
    if n == 0 then "" else Zeros(n - 1) + "0"
  }

  lemma {:induction false} LongEnough(refs: set<Ref>) returns (n: nat)
    ensures n > 0 && forall r :: r in refs ==> |r.nonce| < n
    decreases |refs|
  {
    n := 1;
    if refs != {} {
      var r :| r in refs;
      var k := LongEnough(refs - {r});
      n := if k > |r.nonce| then k else |r.nonce| + 1;
    }
  }

  lemma FreshSupply(d: Draft) returns (m: Lease, b: Lease)
    ensures Supply(d, m, b)
  {
    var n := LongEnough(Owned(d));
    m, b := Lease(Ref(ModelKey, Zeros(n)), ModelStage("gpt", "gpt"), ""),
    Lease(Ref(BridgeKey, Zeros(n)), Words("hub"), "");
    assert Trim("gpt") == "gpt";
    hide Owned;
  }

  lemma FinishesFrom(d: Draft)
    requires Sound(d) && InOrder(d) && !Stranded(d)
    ensures exists ops :: GoThrough(d, ops) && PerformAll(d, ops).step == Map
  {
    var first := EmptiesAll(d);
    var m, b := FreshSupply(Idle(d));
    IdleOrder(d);
    hide *;
    var second := Finishes(Idle(d), m, b);
    GoOn(d, first, second);
    assert GoThrough(d, first + second) && PerformAll(d, first + second).step == Map;
  }

  lemma IdleOrder(d: Draft)
    ensures InOrder(Idle(d)) == InOrder(d) && Stranded(Idle(d)) == Stranded(d) && Idle(Idle(d)) == Idle(d)
  {}

  lemma FinishesFromStore(s: Option<Stored>)
    requires SoundStore(s) && StoreInOrder(s) && !Stuck(s)
    ensures CanFinish(s)
  {
    Opens(s);
    FirstIsSound();
    FirstInOrder();
    var d := if s.Some? then s.value.draft else FirstDraft;
    assert !Stranded(d);
    hide Sound, InOrder, After, Careful, GoThrough, Stranded;
    FinishesFrom(d);
    var ops :| GoThrough(d, ops) && PerformAll(d, ops).step == Map;
    CallsGoThrough(d, ops);
    var open, rest := Establish(0, 1, 0, Done), CallsFor(d, ops);
    var calls := [open] + rest;
    assert calls[1..] == rest;
    assert CarefulRun(s, calls) && FaultFree(calls) && AtMap(AfterAll(s, calls));
  }

  /** Setup can always be finished, except from a stuck draft: from whatever a careful run
      has left, under any faults, some careful calls lead to the map step if and only if
      the draft is not at the model step with model evidence. */
  lemma SetupFinishesExactly(before: seq<Call>)
    requires CarefulRun(None, before)
    ensures CanFinish(AfterAll(None, before)) <==> !Stuck(AfterAll(None, before))
  {
    var s := AfterAll(None, before);
    CarefulRunReloads(None, before);
    RunKeepsOrder(None, before);
    if Stuck(s) {
      forall calls
        ensures !AtMap(AfterAll(s, calls))
      {
        StuckForever(s, calls);
      }
    } else {
      FinishesFromStore(s);
    }
    hide Sound, InOrder, After, Careful;
  }

  /** And a draft becomes stuck in one way only: saving the identity strands it exactly when
      it has model evidence, whatever its step. */
  lemma SavedAgainIsStuck(d: Draft, household: string, agent: string)
    requires Sound(d)
    ensures var r := Perform(d, SaveIdentity(household, agent));
            && (r.Ok? <==> GoodName(household) && GoodName(agent))
            && (r.Ok? ==> (Stranded(r.value) <==> d.model.Some?))
    ensures forall op, e :: Perform(d, op) == Ok(e) && Stranded(e) && !Stranded(d) ==> op.SaveIdentity?
  {
    forall op, e | Perform(d, op) == Ok(e) && Stranded(e) && !Stranded(d)
      ensures op.SaveIdentity?
    {
      OthersDoNotStrand(d, op);
    }
    hide Sound;
  }

  lemma OthersDoNotStrand(d: Draft, op: Op)
    requires !Stranded(d) && Perform(d, op).Ok? && Stranded(Perform(d, op).value)
    ensures op.SaveIdentity?
  {
    hide AppendCleanup, Without, Holds;
  }

  /** Hence, for every reachable draft: an identity saved under its guard leaves setup able
      to finish if and only if there was no model evidence yet. */
  lemma SavingAgainEndsSetupExactly(before: seq<Call>, c: Call)
    requires CarefulRun(None, before + [c]) && c.Request? && c.op.SaveIdentity?
    requires var s := AfterAll(None, before); Answer(s, c).Ok? && c.fault != Refused
    ensures CanFinish(AfterAll(None, before + [c])) <==> AfterAll(None, before).value.draft.model.None?
  {
    AfterOneMore(None, before, c);
    CarefulBefore(None, before, c);
    CarefulRunReloads(None, before);
    SetupFinishesExactly(before + [c]);
    var s := AfterAll(None, before);
    SavedAgainIsStuck(s.value.draft, c.op.household, c.op.agent);
    hide Sound, Valid, CanFinish, Careful;
  }

  lemma {:induction false} AfterOneMore(s: Option<Stored>, before: seq<Call>, c: Call)
    ensures AfterAll(s, before + [c]) == After(AfterAll(s, before), c)
    decreases |before|
  {
    hide After;
    if before == [] {
      assert ([] + [c])[1..] == [];
      assert ([] + [c])[0] == c;
    } else {
      assert (before + [c])[1..] == before[1..] + [c];
      AfterOneMore(After(s, before[0]), before[1..], c);
    }
  }

  lemma {:induction false} CarefulBefore(s: Option<Stored>, before: seq<Call>, c: Call)
    requires CarefulRun(s, before + [c])
    ensures CarefulRun(s, before)
    decreases |before|
  {
    hide After, Careful;
    if before != [] {
      assert (before + [c])[1..] == before[1..] + [c];
      CarefulBefore(After(s, before[0]), before[1..], c);
    }
  }

  // -------------------------------------------------------------------------
  // The map step keeps its evidence
  // -------------------------------------------------------------------------

  /** The locators that an activation commits. */
  function Evidence(d: Draft): set<Ref> {
    ModelRefs(d) + BridgeRefs(d) + VoiceRefs(d)
  }

  function ToDelete(d: Draft): set<Ref> {
    Refs(d.models.cleanup) + Refs(d.bridges.cleanup) + Refs(d.voices.cleanup)
  }

  predicate SameEvidence(d: Draft, e: Draft) {
    e.step == d.step && e.model == d.model && e.bridge == d.bridge && e.asr == d.asr && e.tts == d.tts
    && e.skipped == d.skipped
  }

  lemma MapOp(d: Draft, op: Op)
    requires Sound(d) && d.step == Map && Perform(d, op).Ok?
    ensures var e := Perform(d, op).value; if op.SaveIdentity? then !Valid(e) else Sound(e) && SameEvidence(d, e)
  {
    if op.SaveIdentity? {
      MapIsNotSaved(d, op);
    } else {
      MapOps(d, op);
      WriteReloadsExactly(d, op, Perform(d, op).value);
    }
    hide Sound, Valid, Perform;
  }

  lemma MapIsNotSaved(d: Draft, op: Op)
    requires Sound(d) && d.step == Map && op.SaveIdentity? && Perform(d, op).Ok?
    ensures !Valid(Perform(d, op).value)
  {
    hide GoodNames, ValidPending, Evident;
  }

  lemma MapOps(d: Draft, op: Op)
    requires d.step == Map && !op.SaveIdentity? && Perform(d, op).Ok?
    ensures SameEvidence(d, Perform(d, op).value) && Fresh(d, op) && Safe(d, op)
  {
    hide AppendCleanup, Without, Holds, Owned;
  }

  /** The draft that a store at the map step holds after any call: refused by every load
      from then on, or sound with the same evidence. */
  ghost predicate KeepsMap(d: Draft, s: Option<Stored>) {
    s.Some? && (!Valid(s.value.draft) || (Sound(s.value.draft) && SameEvidence(d, s.value.draft)))
  }

  lemma MapCall(d: Draft, s: Option<Stored>, c: Call)
    requires d.step == Map && KeepsMap(d, s)
    ensures KeepsMap(d, After(s, c))
  {
    hide Sound, Valid, Perform;
    if Valid(s.value.draft) && c.Request? && Perform(s.value.draft, c.op).Ok? {
      MapOp(s.value.draft, c.op);
    }
  }

  lemma {:induction false} MapRun(d: Draft, s: Option<Stored>, calls: seq<Call>)
    requires d.step == Map && KeepsMap(d, s)
    ensures KeepsMap(d, AfterAll(s, calls))
    decreases |calls|
  {
    hide KeepsMap, After;
    if calls != [] {
      MapCall(d, s, calls[0]);
      MapRun(d, After(s, calls[0]), calls[1..]);
    }
  }

  /** What activation commits is never queued for deletion: over every run of calls from a
      sound draft at the map step, careful or not and under any faults, either no load
      accepts the draft any more, so that no sweep reads it, or its evidence is what it
      was and none of it is in a cleanup queue. */
  lemma MapKeepsEvidence(s: Option<Stored>, calls: seq<Call>)
    requires SoundStore(s) && AtMap(s)
    ensures var t := AfterAll(s, calls);
            && t.Some?
            && (Valid(t.value.draft) ==> SameEvidence(s.value.draft, t.value.draft)
                                         && Evidence(t.value.draft) == Evidence(s.value.draft)
                                         && Evidence(t.value.draft) !! ToDelete(t.value.draft))
    ensures CarefulRun(s, calls) ==> Valid(AfterAll(s, calls).value.draft)
  {
    MapRun(s.value.draft, s, calls);
    var e := AfterAll(s, calls).value.draft;
    if Valid(e) {
      OwnedOnce(e);
      hide Sound, Valid, Refs, ModelRefs, BridgeRefs, VoiceRefs;
      assert Evidence(e) !! ToDelete(e);
      EvidenceOf(s.value.draft, e);
    }
    if CarefulRun(s, calls) {
      CarefulRunReloads(s, calls);
    }
  }

  lemma EvidenceOf(d: Draft, e: Draft)
    requires SameEvidence(d, e)
    ensures Evidence(e) == Evidence(d)
  {}
}
