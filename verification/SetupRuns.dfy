/** The setup draft over whole runs of its store, and the controller that drives the store
    and the vault. */
module SetupRuns {
  import opened Wrappers
  import opened SetupDrafts

  // -------------------------------------------------------------------------
  // Locators are neither lost nor shared
  // -------------------------------------------------------------------------

  /** Each owned locator is in exactly one place. */
  lemma OwnedOnce(d: Draft)
    requires Sound(d)
    ensures Refs(d.models.cleanup) !! Refs(d.models.staging) !! ModelRefs(d)
    ensures Refs(d.bridges.cleanup) !! Refs(d.bridges.staging) !! BridgeRefs(d)
    ensures Refs(d.voices.cleanup) !! Refs(d.voices.staging) !! VoiceRefs(d)
    ensures TrackRefs(d.asr) !! TrackRefs(d.tts)
    ensures Refs(d.models.cleanup) + Refs(d.models.staging) + ModelRefs(d)
            !! Refs(d.bridges.cleanup) + Refs(d.bridges.staging) + BridgeRefs(d)
            !! Refs(d.voices.cleanup) + Refs(d.voices.staging) + VoiceRefs(d)
  {
    hide ValidPending, Sound, Valid, Fits, ValidQueue, Refs, ModelRefs, BridgeRefs, VoiceRefs, TrackRefs, GoodNames;
    SoundIsValid(d);
    SoundParts(d);
    RefsOfKinds(d.models, {ModelKey}, 1, ModelRefs(d));
    RefsOfKinds(d.bridges, {BridgeKey}, 1, BridgeRefs(d));
    RefsOfKinds(d.voices, {AsrKey, TtsKey}, MAX_CLEANUPS, VoiceRefs(d));
    QueueRefs(d.models, {ModelKey}, 1, ModelRefs(d));
    QueueRefs(d.bridges, {BridgeKey}, 1, BridgeRefs(d));
    QueueRefs(d.voices, {AsrKey, TtsKey}, MAX_CLEANUPS, VoiceRefs(d));
    KindsOfEvidence(d);
    KindsOfVoice(d);
    KindsApart(Refs(d.models.cleanup) + Refs(d.models.staging) + ModelRefs(d),
               Refs(d.bridges.cleanup) + Refs(d.bridges.staging) + BridgeRefs(d),
               Refs(d.voices.cleanup) + Refs(d.voices.staging) + VoiceRefs(d));
  }

  lemma RefsOfKinds(p: Pending, kinds: set<Kind>, max: nat, active: set<Ref>)
    requires ValidPending(p, kinds, max, active)
    ensures forall r :: r in Refs(p.cleanup) || r in Refs(p.staging) ==> r.kind in kinds
  {
    QueueRefs(p, kinds, max, active);
    hide ValidPending, ValidQueue, Fits;
  }

  lemma KindsApart(m: set<Ref>, b: set<Ref>, v: set<Ref>)
    requires forall r :: r in m ==> r.kind == ModelKey
    requires forall r :: r in b ==> r.kind == BridgeKey
    requires forall r :: r in v ==> r.kind == AsrKey || r.kind == TtsKey
    ensures m !! b !! v
  {}

  lemma KindsOfEvidence(d: Draft)
    requires Valid(d)
    ensures forall r :: r in ModelRefs(d) ==> r.kind == ModelKey
    ensures forall r :: r in BridgeRefs(d) ==> r.kind == BridgeKey
  {}

  /** What an operation gives up: only an acknowledgement does. */
  function Given(d: Draft, op: Op): set<Ref> {
    match op
    case AckModel(l, staged) => if Holds(if staged then d.models.staging else d.models.cleanup, l) then {l.ref} else {}
    case AckBridge(l, staged) => if Holds(if staged then d.bridges.staging else d.bridges.cleanup, l) then {l.ref}
    else {}
    case AckVoice(l, staged) => if Holds(if staged then d.voices.staging else d.voices.cleanup, l) then {l.ref} else {}
    case _ => {}
  }

  lemma AckedRefs(ls: seq<Lease>, l: Lease)
    requires Distinct(ls)
    ensures Refs(Without(ls, l)) == Refs(ls) - (if Holds(ls, l) then {l.ref} else {})
  {
    if Holds(ls, l) {
      SplitStaging(ls, l);
    } else {
      assert forall x :: x in Without(ls, l) <==> x in ls;
    }
  }

  lemma AckedQueues(p: Pending, l: Lease, staged: bool, kinds: set<Kind>, max: nat, active: set<Ref>)
    requires ValidPending(p, kinds, max, active) && Apart(p)
    ensures Queued(AckPending(p, l, staged)) == Queued(p) - (if Holds(if staged then p.staging else p.cleanup, l)
                                                             then {l.ref} else {})
  {
    var ls := if staged then p.staging else p.cleanup;
    AckedRefs(ls, l);
    if Holds(ls, l) {
      InStaging(ls, l);
      MemberRefs(ls);
    }
    hide Without, Holds;
  }

  function BesideModels(d: Draft): set<Ref> {
    ModelRefs(d) + Queued(d.bridges) + BridgeRefs(d) + Queued(d.voices) + VoiceRefs(d)
  }

  function BesideBridges(d: Draft): set<Ref> {
    Queued(d.models) + ModelRefs(d) + BridgeRefs(d) + Queued(d.voices) + VoiceRefs(d)
  }

  function BesideVoices(d: Draft): set<Ref> {
    Queued(d.models) + ModelRefs(d) + Queued(d.bridges) + BridgeRefs(d) + VoiceRefs(d)
  }

  lemma QueuesBeside(d: Draft)
    requires Sound(d)
    ensures Queued(d.models) !! BesideModels(d) && Queued(d.bridges) !! BesideBridges(d)
            && Queued(d.voices) !! BesideVoices(d)
  {
    SoundIsValid(d);
    hide Sound, Valid, ValidPending, Queued, ModelRefs, BridgeRefs, VoiceRefs, Refs, Fits;
    SoundParts(d);
    KindsOfEvidence(d);
    KindsOfVoice(d);
    QueuedKinds(d.models, {ModelKey}, 1, ModelRefs(d));
    QueuedKinds(d.bridges, {BridgeKey}, 1, BridgeRefs(d));
    QueuedKinds(d.voices, {AsrKey, TtsKey}, MAX_CLEANUPS, VoiceRefs(d));
    KindsApart(Queued(d.models) + ModelRefs(d), Queued(d.bridges) + BridgeRefs(d), Queued(d.voices) + VoiceRefs(d));
  }

  lemma QueuedKinds(p: Pending, kinds: set<Kind>, max: nat, active: set<Ref>)
    requires ValidPending(p, kinds, max, active)
    ensures Queued(p) !! active && forall r :: r in Queued(p) ==> r.kind in kinds
  {
    QueueRefs(p, kinds, max, active);
    hide ValidPending, ValidQueue;
  }

  lemma KindsOfVoice(d: Draft)
    requires Valid(d)
    ensures forall r :: r in VoiceRefs(d) ==> r.kind == AsrKey || r.kind == TtsKey
    ensures forall r :: r in TrackRefs(d.asr) ==> r.kind == AsrKey
    ensures forall r :: r in TrackRefs(d.tts) ==> r.kind == TtsKey
  {}

  lemma Subtract(a: set<Ref>, b: set<Ref>, given: set<Ref>, a': set<Ref>)
    requires a !! b && given <= a && a' == a - given
    ensures a' + b == a + b - given
  {}

  lemma GivenIsQueued(ls: seq<Lease>, l: Lease)
    ensures (if Holds(ls, l) then {l.ref} else {}) <= Refs(ls)
  {}

  lemma BesideStays(d: Draft, p: Pending)
    ensures Owned(d.(models := p)) == Queued(p) + BesideModels(d)
    ensures Owned(d.(bridges := p)) == Queued(p) + BesideBridges(d)
    ensures Owned(d.(voices := p)) == Queued(p) + BesideVoices(d)
  {
    hide Refs;
  }

  lemma OwnQueues(d: Draft)
    ensures d.(models := d.models) == d && d.(bridges := d.bridges) == d && d.(voices := d.voices) == d
  {}

  lemma AckShape(d: Draft, op: Op)
    requires op.AckModel? || op.AckBridge? || op.AckVoice?
    ensures var q := if op.AckModel? then d.models else if op.AckBridge? then d.bridges else d.voices;
            var p := AckPending(q, op.lease, op.staged);
            && Perform(d,
                       op) == Ok(if op.AckModel? then d.(models := p) else if op.AckBridge? then d.(bridges := p)
                                 else d.(voices := p))
            && Given(d, op) == if Holds(if op.staged then q.staging else q.cleanup, op.lease) then {op.lease.ref}
               else {}
  {
    hide AckPending, Holds;
  }

  lemma QueuedRefs(p: Pending)
    ensures Refs(p.cleanup) <= Queued(p) && Refs(p.staging) <= Queued(p)
  {}

  lemma AckConserves(d: Draft, op: Op, e: Draft)
    requires Sound(d) && (op.AckModel? || op.AckBridge? || op.AckVoice?) && Perform(d, op) == Ok(e)
    ensures Owned(e) == Owned(d) - Given(d, op)
  {
    hide *;
    SoundParts(d);
    QueuesBeside(d);
    AckShape(d, op);
    OwnQueues(d);
    var q := if op.AckModel? then d.models else if op.AckBridge? then d.bridges else d.voices;
    var p := AckPending(q, op.lease, op.staged);
    BesideStays(d, p);
    BesideStays(d, q);
    QueuedRefs(q);
    GivenIsQueued(if op.staged then q.staging else q.cleanup, op.lease);
    if op.AckModel? {
      AckedQueues(d.models, op.lease, op.staged, {ModelKey}, 1, ModelRefs(d));
      Subtract(Queued(q), BesideModels(d), Given(d, op), Queued(p));
    } else if op.AckBridge? {
      AckedQueues(d.bridges, op.lease, op.staged, {BridgeKey}, 1, BridgeRefs(d));
      Subtract(Queued(q), BesideBridges(d), Given(d, op), Queued(p));
    } else {
      AckedQueues(d.voices, op.lease, op.staged, {AsrKey, TtsKey}, MAX_CLEANUPS, VoiceRefs(d));
      Subtract(Queued(q), BesideVoices(d), Given(d, op), Queued(p));
    }
  }

  lemma ReserveConserves(d: Draft, op: Op, e: Draft)
    requires Sound(d) && (op.ReserveModel? || op.ReserveBridge? || op.ReserveVoice?) && Fresh(d, op)
             && Perform(d, op) == Ok(e)
    ensures Owned(e) == Owned(d) + NewRefs(op)
  {
    hide Sound, Valid, ValidPending, ReservePending, Holds, Refs, Admitted, Loaded;
    SoundParts(d);
    OwnedParts(d);
    match op
    case ReserveModel(l) =>
      assert l.ref in NewRefs(op);
      AdmittedKind(l);
      ReservedPending(d.models, l, |d.models.cleanup| < MAX_CLEANUPS, {ModelKey}, 1, ModelRefs(d));
    case ReserveBridge(l) =>
      assert l.ref in NewRefs(op);
      ReservedPending(d.bridges, l, |d.bridges.cleanup| < MAX_CLEANUPS, {BridgeKey}, 1, BridgeRefs(d));
    case ReserveVoice(v) =>
      assert v.ref.value in NewRefs(op);
      ReservedPending(d.voices, StageLease(v), |d.voices.cleanup| + |d.voices.staging| < MAX_CLEANUPS,
                      {AsrKey, TtsKey}, MAX_CLEANUPS, VoiceRefs(d));
  }

  lemma RecordConserves(d: Draft, op: Op, e: Draft)
    requires Sound(d) && (op.RecordModel? || op.RecordBridge?) && Perform(d, op) == Ok(e)
    ensures Owned(e) == Owned(d)
  {
    SoundParts(d);
    QueueRefs(d.models, {ModelKey}, 1, ModelRefs(d));
    QueueRefs(d.bridges, {BridgeKey}, 1, BridgeRefs(d));
    if op.RecordModel? {
      HeldIsSome(d.models.staging, op.lease);
      SplitStaging(d.models.staging, op.lease);
    } else {
      HeldIsSome(d.bridges.staging, op.lease);
      SplitStaging(d.bridges.staging, op.lease);
    }
    hide Sound, Valid, ValidPending, Holds, Refs, Without;
  }

  lemma AdmittedKind(l: Lease)
    ensures Admitted(l) ==> l.ref.kind == ModelKey
  {}

  lemma RetireShape(d: Draft, op: Op, e: Draft)
    requires Perform(d, op) == Ok(e)
    ensures match op
            case RetireModel(l) => RetirePending(d.models, l, ModelRef(d)) == Ok(e.models)
            && e == d.(models := e.models)
            case RetireBridge(l) => RetirePending(d.bridges, l, BridgeRef(d)) == Ok(e.bridges)
            && e == d.(bridges := e.bridges)
            case RecoverModels => RecoverPending(d.models, ModelRef(d)) == Ok(e.models) && e == d.(models := e.models)
            case RecoverBridges => RecoverPending(d.bridges, BridgeRef(d)) == Ok(e.bridges)
            && e == d.(bridges := e.bridges)
            case RecoverVoices => RecoverPending(d.voices, None) == Ok(e.voices) && e == d.(voices := e.voices)
            case _ => true
  {
    hide RetirePending, RecoverPending;
  }

  lemma ActiveRef(d: Draft)
    ensures (ModelRef(d).Some? ==> ModelRef(d).value in ModelRefs(d))
            && (BridgeRef(d).Some? ==> BridgeRef(d).value in BridgeRefs(d))
  {}

  lemma QueuedIs(p: Pending)
    ensures Queued(p) == Refs(p.cleanup) + Refs(p.staging) && (p.staging == [] ==> Queued(p) == Refs(p.cleanup))
  {
    NoRefs();
  }

  lemma RetireConserves(d: Draft, op: Op, e: Draft)
    requires Sound(d)
             && (op.RetireModel? || op.RetireBridge? || op.RecoverModels? || op.RecoverBridges? || op.RecoverVoices?)
             && Perform(d, op) == Ok(e)
    ensures Owned(e) == Owned(d)
  {
    hide *;
    SoundParts(d);
    ActiveRef(d);
    RetireShape(d, op, e);
    OwnQueues(d);
    match op {
      case RetireModel(l) => RetiredFits(d.models, l, {ModelKey}, 1, ModelRef(d), ModelRefs(d));
      case RetireBridge(l) => RetiredFits(d.bridges, l, {BridgeKey}, 1, BridgeRef(d), BridgeRefs(d));
      case RecoverModels => RecoveredFits(d.models, {ModelKey}, 1, ModelRef(d), ModelRefs(d));
      case RecoverBridges => RecoveredFits(d.bridges, {BridgeKey}, 1, BridgeRef(d), BridgeRefs(d));
      case RecoverVoices => RecoveredFits(d.voices, {AsrKey, TtsKey}, MAX_CLEANUPS, None, VoiceRefs(d));
    }
    var q := if op.RetireModel? || op.RecoverModels? then d.models else if op.RecoverVoices? then d.voices
        else d.bridges;
    var p := if op.RetireModel? || op.RecoverModels? then e.models else if op.RecoverVoices? then e.voices
        else e.bridges;
    QueuedIs(q);
    QueuedIs(p);
    BesideStays(d, q);
    BesideStays(d, p);
  }

  lemma NoRefs()
    ensures Refs([]) == {}
  {}

  lemma VoiceConserves(d: Draft, v: VoiceStage, e: Draft)
    requires Sound(d) && Perform(d, RecordVoice(v)) == Ok(e)
    ensures Owned(e) == Owned(d)
  {
    RecordedShape(d, v, e);
    RecordedVoices(d, v, e);
    KeptFacts(d, v);
    RecordedRest(d, v, e);
    hide Sound, Valid, Perform, KeptVoices, ValidPending, Refs, Holds, VoiceRefs, TrackRefs;
  }

  lemma RecordedRest(d: Draft, v: VoiceStage, e: Draft)
    requires Perform(d, RecordVoice(v)) == Ok(e)
    ensures e.models == d.models && e.bridges == d.bridges && e.model == d.model && e.bridge == d.bridge
  {
    hide AppendCleanup, Holds, Without;
  }

  lemma SkipConserves(d: Draft, e: Draft)
    requires Sound(d) && Perform(d, SkipVoice) == Ok(e)
    ensures Owned(e) == Owned(d)
  {
    hide ValidPending, AppendCleanup, Refs, Holds, Apart, TrackLease;
    SoundParts(d);
    PendingQueues(d.voices, {AsrKey, TtsKey}, MAX_CLEANUPS, VoiceRefs(d));
    var moved := TrackLease(d.asr) + TrackLease(d.tts);
    assert forall l :: l in moved <==> l in TrackLease(d.asr) || l in TrackLease(d.tts);
    TrackLeaseRefs(d.asr, AsrKey);
    TrackLeaseRefs(d.tts, TtsKey);
    JoinedRefs(TrackLease(d.asr), TrackLease(d.tts));
    NoRefs();
    MovedPending(d.voices.cleanup, moved, [], {AsrKey, TtsKey}, MAX_CLEANUPS, None, {});
    assert VoiceRefs(e) == {};
  }

  lemma JoinedRefs(a: seq<Lease>, b: seq<Lease>)
    ensures Refs(a + b) == Refs(a) + Refs(b)
  {
    assert forall l :: l in a + b <==> l in a || l in b;
  }

  /** Conservation: an operation hands out only what it reserves and forgets only what it
      acknowledges; everything else it merely moves between queues and evidence. */
  lemma LocatorsAreConserved(d: Draft, op: Op, e: Draft)
    requires Sound(d) && Fresh(d, op) && Perform(d, op) == Ok(e)
    ensures Owned(e) == Owned(d) + NewRefs(op) - Given(d, op)
  {
    hide *;
    NoneGiven(d, op);
    match op {
      case SaveIdentity(_, _) => IdentityConserves(d, op, e);
      case ReserveModel(_) => ReserveConserves(d, op, e);
      case ReserveBridge(_) => ReserveConserves(d, op, e);
      case ReserveVoice(_) => ReserveConserves(d, op, e);
      case RecordModel(_) => RecordConserves(d, op, e);
      case RecordBridge(_) => RecordConserves(d, op, e);
      case RecordVoice(v) => VoiceConserves(d, v, e);
      case SkipVoice => SkipConserves(d, e);
      case AckModel(_, _) => AckConserves(d, op, e);
      case AckBridge(_, _) => AckConserves(d, op, e);
      case AckVoice(_, _) => AckConserves(d, op, e);
      case _ => RetireConserves(d, op, e);
    }
  }

  lemma IdentityConserves(d: Draft, op: Op, e: Draft)
    requires op.SaveIdentity? && Perform(d, op) == Ok(e)
    ensures Owned(e) == Owned(d)
  {}

  lemma NoneGiven(d: Draft, op: Op)
    ensures !op.AckModel? && !op.AckBridge? && !op.AckVoice? ==> Given(d, op) == {}
    ensures !op.ReserveModel? && !op.ReserveBridge? && !op.ReserveVoice? ==> NewRefs(op) == {}
  {}

  // -------------------------------------------------------------------------
  // The store over whole runs
  // -------------------------------------------------------------------------

  /** What the file holds: the session and the draft. */
  datatype Stored = Stored(token: nat, expires: nat, draft: Draft)

  datatype Call =
    | Establish(token: nat, expires: nat, now: nat, fault: Fault)
    | Request(op: Op, token: nat, revision: nat, now: nat, fault: Fault)

  const FirstDraft := Draft(1, Identity, None, None, None, Nothing, None, Nothing, None, None, None, false, Nothing)

  /** What a call would write, or why it writes nothing. */
  function Answer(s: Option<Stored>, c: Call): Result<Stored> {
    if s.Some? && !Valid(s.value.draft) then Err(Unreadable)
    else
      match c
      case Establish(token, expires, now, _) =>
        if expires <= now then Err(BadInput)
        else Ok(Stored(token, expires, if s.Some? then s.value.draft else FirstDraft))
      case Request(op, token, revision, now, _) =>
        if s.None? then Err(Expired)
        else if NeedsSession(op) && (now >= s.value.expires || token != s.value.token) then Err(Expired)
        else if NeedsSession(op) && revision != s.value.draft.revision then Err(RevisionConflict)
        else
          var r := Perform(s.value.draft, op);
          if r.Ok? then Ok(s.value.(draft := r.value)) else Err(r.error)
  }

  function After(s: Option<Stored>, c: Call): Option<Stored> {
    var r := Answer(s, c);
    if r.Ok? && c.fault != Refused then Some(r.value) else s
  }

  function AfterAll(s: Option<Stored>, calls: seq<Call>): Option<Stored>
    decreases |calls|
  {
    if calls == [] then s else AfterAll(After(s, calls[0]), calls[1..])
  }

  /** A call keeps the hypotheses: fresh locators, and the guard of what it performs. */
  ghost predicate Careful(s: Option<Stored>, c: Call) {
    s.Some? && c.Request? ==> Fresh(s.value.draft, c.op) && Safe(s.value.draft, c.op)
  }

  ghost predicate CarefulRun(s: Option<Stored>, calls: seq<Call>)
    decreases |calls|
  {
    calls == [] || (Careful(s, calls[0]) && CarefulRun(After(s, calls[0]), calls[1..]))
  }

  ghost predicate SoundStore(s: Option<Stored>) {
    s.Some? ==> Sound(s.value.draft)
  }

  lemma FirstIsSound()
    ensures Sound(FirstDraft)
  {}

  lemma CallKeepsSound(s: Option<Stored>, c: Call)
    requires SoundStore(s) && Careful(s, c)
    ensures SoundStore(After(s, c))
  {
    hide Sound, Valid, Perform, Fresh, Safe, FirstDraft;
    FirstIsSound();
    if s.Some? && c.Request? && Perform(s.value.draft, c.op).Ok? {
      WriteReloadsExactly(s.value.draft, c.op, Perform(s.value.draft, c.op).value);
    }
  }

  /** Every draft that a careful run writes is accepted by the next load, whatever faults
      its writes meet. */
  lemma {:induction false} CarefulRunReloads(s: Option<Stored>, calls: seq<Call>)
    requires SoundStore(s) && CarefulRun(s, calls)
    ensures SoundStore(AfterAll(s, calls))
    decreases |calls|
  {
    hide SoundStore, Careful, After;
    if calls != [] {
      CallKeepsSound(s, calls[0]);
      CarefulRunReloads(After(s, calls[0]), calls[1..]);
    }
  }

  /** A draft that the reload refuses stays as it is: no call can repair it. */
  lemma {:induction false} RefusedForever(s: Option<Stored>, calls: seq<Call>)
    requires s.Some? && !Valid(s.value.draft)
    ensures AfterAll(s, calls) == s
    decreases |calls|
  {
    hide Valid;
    if calls != [] {
      RefusedForever(s, calls[1..]);
    }
  }

  // -------------------------------------------------------------------------
  // Runs that end in a draft no load accepts
  // -------------------------------------------------------------------------

  function PerformAll(d: Draft, ops: seq<Op>): Draft
    decreases |ops|
  {
    if ops == [] then d
    else
      var r := Perform(d, ops[0]);
      PerformAll(if r.Ok? then r.value else d, ops[1..])
  }

  const ModelLease := Lease(Ref(ModelKey, "1"), ModelStage("gpt", "gpt-4"), "")
  const BridgeLease := Lease(Ref(BridgeKey, "2"), Words("hub"), "")
  const Asr1 := VoiceStage(false, Some(Ref(AsrKey, "3")), "a")
  const Asr2 := VoiceStage(false, Some(Ref(AsrKey, "4")), "a")
  const Tts1 := VoiceStage(true, Some(Ref(TtsKey, "5")), "t")

  const Named := FirstDraft.(revision := 2, step := Model, household := Some("home"), agent := Some("agent"))
  const Leased := Named.(models := Pending([], [ModelLease]))
  const Probed := Named.(revision := 3, step := Bridge, model := Some(ModelLease))
  const Bridging := Probed.(bridges := Pending([], [BridgeLease]))
  const Voicing := Probed.(revision := 4, step := Voice, bridge := Some(BridgeLease))

  const Left := Voicing.(voices := Pending([], [StageLease(Asr1)]))
  const Both := Voicing.(voices := Pending([], [StageLease(Asr1), StageLease(Asr2)]))
  const Half := Left.(revision := 5, asr := Some(Track(Asr2.ref, "a")), latencies := Some(Latencies(true, false)))
  const Third := Half.(voices := Pending([], [StageLease(Asr1), StageLease(Tts1)]))

  const ToBridge := [SaveIdentity("home", "agent"), ReserveModel(ModelLease), RecordModel(ModelLease),
                     ReserveBridge(BridgeLease)]
  const ToVoice := [RecordBridge(BridgeLease), ReserveVoice(Asr1), ReserveVoice(Asr2), RecordVoice(Asr2),
                    ReserveVoice(Tts1)]

  lemma TakeLast(l: Lease)
    ensures Without([l], l) == [] && Holds([l], l) && !Holds([], l) && [] + [l] == [l] && Refs([]) == {}
  {
    assert Without([l][1..], l) == [];
  }

  lemma TakeSecond(a: Lease, b: Lease)
    requires a.ref != b.ref
    ensures Without([a, b], b) == [a] && Holds([a, b], b) && !Holds([a], b) && [a] + [b] == [a, b]
  {
    assert [a, b][1..] == [b];
    TakeLast(b);
    assert a in [a, b] && b in [a, b];
  }

  lemma {:induction false} PerformsAlong(ds: seq<Draft>, ops: seq<Op>)
    requires |ds| == |ops| + 1 && forall i :: 0 <= i < |ops| ==> Perform(ds[i], ops[i]) == Ok(ds[i + 1])
    ensures PerformAll(ds[0], ops) == ds[|ops|]
    decreases |ops|
  {
    hide Perform;
    if ops != [] {
      PerformsAlong(ds[1..], ops[1..]);
    }
  }

  lemma NamesAreGood()
    ensures GoodName("home") && GoodName("agent") && Trim("home") == "home" && Trim("agent") == "agent"
  {
    assert NoBlank("home") && NoBlank("agent");
    hide Blank;
  }

  lemma NamedAtFirst()
    ensures Perform(FirstDraft, SaveIdentity("home", "agent")) == Ok(Named)
  {
    NamesAreGood();
    hide GoodName, Trim;
  }

  lemma ModelSteps()
    ensures Perform(FirstDraft, SaveIdentity("home", "agent")) == Ok(Named)
    ensures Perform(Named, ReserveModel(ModelLease)) == Ok(Leased)
    ensures Perform(Leased, RecordModel(ModelLease)) == Ok(Probed)
  {
    hide GoodName;
    NamedAtFirst();
    TakeLast(ModelLease);
  }

  lemma BridgeSteps()
    ensures Perform(Probed, ReserveBridge(BridgeLease)) == Ok(Bridging)
    ensures Perform(Bridging, RecordBridge(BridgeLease)) == Ok(Voicing)
  {
    TakeLast(BridgeLease);
  }

  lemma LeaseSteps()
    ensures Perform(Voicing, ReserveVoice(Asr1)) == Ok(Left)
    ensures Perform(Left, ReserveVoice(Asr2)) == Ok(Both)
  {
    TakeLast(StageLease(Asr1));
    TakeSecond(StageLease(Asr1), StageLease(Asr2));
  }

  lemma RecordStep()
    ensures Perform(Both, RecordVoice(Asr2)) == Ok(Half)
  {
    TakeSecond(StageLease(Asr1), StageLease(Asr2));
  }

  lemma TtsStep()
    ensures Perform(Half, ReserveVoice(Tts1)) == Ok(Third)
  {
    TakeLast(StageLease(Asr1));
    TakeSecond(StageLease(Asr1), StageLease(Tts1));
    assert Half.voices.staging + [StageLease(Tts1)] == Third.voices.staging;
  }

  /** Saving the identity while a bridge lease is handed out: the draft is refused from then on. */
  lemma IdentityOverLeaseIsRefused()
    ensures var e := Perform(PerformAll(FirstDraft, ToBridge), SaveIdentity("home", "agent")); e.Ok? && !Valid(e.value)
  {
    ModelSteps();
    BridgeSteps();
    hide Perform;
    PerformsAlong([FirstDraft, Named, Leased, Probed, Bridging], ToBridge);
    SaveOverLease();
  }

  lemma SaveOverLease()
    ensures var e := Perform(Bridging, SaveIdentity("home", "agent")); e.Ok? && !Valid(e.value)
  {
    NamesAreGood();
    hide GoodNames, GoodName, Trim, ValidPending, Evident;
  }

  /** A voice lease whose delete failed stays handed out; completing both tracks with it
      left over writes a map draft that no load accepts. */
  lemma LeftoverLeaseIsRefused()
    ensures var e := Perform(PerformAll(FirstDraft, ToBridge + ToVoice), RecordVoice(Tts1)); e.Ok? && !Valid(e.value)
  {
    ModelSteps();
    BridgeSteps();
    LeaseSteps();
    RecordStep();
    TtsStep();
    hide Perform;
    PerformsAlong([FirstDraft, Named, Leased, Probed, Bridging, Voicing, Left, Both, Half, Third], ToBridge + ToVoice);
    LastRecord();
  }

  lemma LastRecord()
    ensures Perform(Third, RecordVoice(Tts1)).Ok? && !Valid(Perform(Third, RecordVoice(Tts1)).value)
  {
    TakeSecond(StageLease(Asr1), StageLease(Tts1));
    var e := Perform(Third, RecordVoice(Tts1)).value;
    assert e.voices.staging == [StageLease(Asr1)] && e.step == Map;
  }

  /** A model id with white space inside is admitted and reserved, and its record is
      accepted, but no load accepts the draft that it writes. */
  lemma SpacedModelIdIsRefused()
    ensures var ops := [SaveIdentity("home", "agent"), ReserveModel(SpacedLease)];
            var e := Perform(PerformAll(FirstDraft, ops), RecordModel(SpacedLease));
            e.Ok? && !Valid(e.value)
  {
    SpacedSteps();
    StrictIsStronger();
    hide Perform, Valid;
    PerformsAlong([FirstDraft, Named, Spaced], [SaveIdentity("home", "agent"), ReserveModel(SpacedLease)]);
  }

  const Spaced := Named.(models := Pending([], [SpacedLease]))

  lemma SpacedSteps()
    ensures Perform(FirstDraft, SaveIdentity("home", "agent")) == Ok(Named)
    ensures Perform(Named, ReserveModel(SpacedLease)) == Ok(Spaced)
    ensures Perform(Spaced, RecordModel(SpacedLease)).Ok? && !Valid(Perform(Spaced, RecordModel(SpacedLease)).value)
  {
    NamedAtFirst();
    SpacedIsLoaded();
    TakeLast(SpacedLease);
    SpacedRecord();
    hide GoodName, Trim, Admitted, Loaded, Valid;
  }

  lemma SpacedIsLoaded()
    ensures Loaded(SpacedLease) == SpacedLease && Admitted(SpacedLease) && !Evident(SpacedLease)
  {
    StrictIsStronger();
    assert Trim("gpt") == "gpt" && Trim("gpt 4") == "gpt 4";
  }

  lemma SpacedRecord()
    ensures Perform(Spaced, RecordModel(SpacedLease)).Ok? && !Valid(Perform(Spaced, RecordModel(SpacedLease)).value)
  {
    SpacedIsLoaded();
    TakeLast(SpacedLease);
    hide GoodName, Trim, Admitted, Loaded, Evident, ValidPending;
  }
}
