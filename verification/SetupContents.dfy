/** What the setup draft holds: when each operation is accepted, what it stores and leaves,
    and hence what a draft holds after any run. */
module SetupContents {
  import opened Wrappers
  import opened SetupDrafts
  import opened SetupRuns
  import opened SetupProgress

  // -------------------------------------------------------------------------
  // Queues, exactly
  // -------------------------------------------------------------------------

  /** The one lease like `l` is gone from its place; without one nothing changes. */
  ghost predicate OneOut(ls: seq<Lease>, ls': seq<Lease>, l: Lease) {
    if Holds(ls, l) then exists i :: 0 <= i < |ls| && Same(ls[i], l) && ls' == ls[..i] + ls[i + 1..] else ls' == ls
  }

  lemma {:induction false} TakesOneOut(ls: seq<Lease>, l: Lease)
    requires Distinct(ls)
    ensures OneOut(ls, Without(ls, l), l)
    decreases |ls|
  {
    if !Holds(ls, l) {
      NoneGoes(ls, l);
    } else if Same(ls[0], l) {
      TakesFirstOut(ls, l);
    } else {
      HeldLater(ls, l);
      TakesOneOut(ls[1..], l);
      TakesLaterOut(ls, l);
    }
  }

  lemma TakesFirstOut(ls: seq<Lease>, l: Lease)
    requires Distinct(ls) && ls != [] && Same(ls[0], l)
    ensures OneOut(ls, Without(ls, l), l)
  {
    assert ls == [ls[0]] + ls[1..];
    OnlyFirstGoes(ls[0], ls[1..]);
    SameMeans(ls, ls[0], l);
    assert ls[..0] + ls[0 + 1..] == ls[1..];
    hide Without, Distinct;
  }

  lemma TakesLaterOut(ls: seq<Lease>, l: Lease)
    requires ls != [] && !Same(ls[0], l) && Holds(ls[1..], l) && OneOut(ls[1..], Without(ls[1..], l), l)
    ensures OneOut(ls, Without(ls, l), l)
  {
    var rest := Without(ls[1..], l);
    assert Without(ls, l) == [ls[0]] + rest;
    hide Without;
    var i :| 0 <= i < |ls[1..]| && Same(ls[1..][i], l) && rest == ls[1..][..i] + ls[1..][i + 1..];
    LaterCut(ls, i);
    assert Same(ls[i + 1], l);
  }

  lemma LaterCut(ls: seq<Lease>, i: nat)
    requires i + 1 < |ls|
    ensures [ls[0]] + (ls[1..][..i] + ls[1..][i + 1..]) == ls[..i + 1] + ls[i + 1 + 1..] && ls[1..][i] == ls[i + 1]
  {}

  lemma HeldLater(ls: seq<Lease>, l: Lease)
    requires Holds(ls, l) && !Same(ls[0], l)
    ensures Holds(ls[1..], l)
  {
    var x :| x in ls && Same(x, l);
    assert x in ls[1..];
  }

  lemma {:induction false} SameMeans(ls: seq<Lease>, k: Lease, l: Lease)
    requires Same(k, l)
    ensures Without(ls, l) == Without(ls, k)
    decreases |ls|
  {
    if ls != [] {
      SameMeans(ls[1..], k, l);
    }
  }

  /** Leases that are new to a queue join it at the end, in order, if there is room for all. */
  lemma {:induction false} AppendsExactly(cleanup: seq<Lease>, removed: seq<Lease>, active: Option<Ref>)
    requires Distinct(removed) && |cleanup| <= 8
    requires forall l :: l in removed ==> active != Some(l.ref) && l.ref !in Refs(cleanup)
    ensures var r := AppendCleanup(cleanup, removed, active);
            && (r.Ok? <==> |cleanup| + |removed| <= 8)
            && (r.Ok? ==> r.value == cleanup + removed)
    decreases |removed|
  {
    if removed == [] {
      assert cleanup + removed == cleanup;
    } else if |cleanup| < 8 {
      var l, rest := removed[0], removed[1..];
      JoinedRefs(cleanup, [l]);
      OneRef(l);
      forall x | x in rest
        ensures active != Some(x.ref) && x.ref !in Refs(cleanup + [l])
      {
        var i :| 0 <= i < |rest| && rest[i] == x;
        assert removed[i + 1] == x;
      }
      AppendsExactly(cleanup + [l], rest, active);
      assert cleanup + [l] + rest == cleanup + removed;
    }
  }

  lemma NoneHeld(ls: seq<Lease>, l: Lease)
    requires l.ref !in Refs(ls)
    ensures !Holds(ls, l)
  {
    MemberRefs(ls);
  }

  // -------------------------------------------------------------------------
  // When an operation is accepted
  // -------------------------------------------------------------------------

  predicate OfItsKind(v: VoiceStage) {
    v.ref.Some? ==> v.ref.value.kind == VoiceKind(v)
  }

  /** What each operation asks of a sound draft. */
  predicate Admits(d: Draft, op: Op) {
    match op
    case SaveIdentity(h, a) => GoodName(h) && GoodName(a)
    case ReserveModel(l) =>
      && d.step == Model && Admitted(l) && d.model.None?
      && !Holds(d.models.cleanup, l) && |d.models.cleanup| < 8 && d.models.staging == []
    case RecordModel(l) => d.step == Model && Admitted(l) && Holds(d.models.staging, l)
    case ReserveBridge(l) =>
      && d.step == Bridge && l.ref.kind == BridgeKey && d.bridge.None?
      && !Holds(d.bridges.cleanup, l) && |d.bridges.cleanup| < 8 && d.bridges.staging == []
    case RecordBridge(l) => d.step == Bridge && l.ref.kind == BridgeKey && Holds(d.bridges.staging, l)
    case ReserveVoice(v) =>
      && d.step == Voice && v.ref.Some? && OfItsKind(v) && v.ref.value !in VoiceRefs(d)
      && v.ref.value !in Refs(d.voices.cleanup) && !Holds(d.voices.staging, StageLease(v))
      && |d.voices.cleanup| + |d.voices.staging| < 8
    case RecordVoice(v) =>
      && d.step == Voice && OfItsKind(v) && (v.ref.Some? ==> Holds(d.voices.staging, StageLease(v)))
      && (TrackRefs(OwnTrack(d, v)) != {} ==> |d.voices.cleanup| < 8)
    case SkipVoice =>
      d.step == Voice && d.voices.staging == [] && |d.voices.cleanup| + |TrackLease(d.asr)| + |TrackLease(d.tts)| <= 8
    case _ => true
  }

  lemma ReserveAdmits(p: Pending, l: Lease, room: bool, kinds: set<Kind>, active: set<Ref>)
    requires ValidPending(p, kinds, 1, active)
    ensures ReservePending(p, l, room, 1).Ok? <==> !Holds(p.cleanup, l) && room && p.staging == []
  {
    if p.staging != [] {
      assert |p.staging| == 1;
    } else {
      assert !Holds(p.staging, l);
    }
    hide ValidPending;
  }

  lemma RecordedTrackIsNew(d: Draft, v: VoiceStage)
    requires Sound(d) && (v.ref.Some? ==> Holds(d.voices.staging, StageLease(v)))
    ensures var own := TrackLease(OwnTrack(d, v));
            && Distinct(own) && |d.voices.cleanup| <= 8 && |own| <= 1
            && (own == [] <==> TrackRefs(OwnTrack(d, v)) == {})
            && forall l :: l in own ==> v.ref != Some(l.ref) && l.ref !in Refs(d.voices.cleanup)
  {
    SoundParts(d);
    QueueRefs(d.voices, {AsrKey, TtsKey}, MAX_CLEANUPS, VoiceRefs(d));
    if v.ref.Some? {
      InStaging(d.voices.staging, StageLease(v));
      MemberRefs(d.voices.staging);
    }
    hide Sound, Valid, ValidPending, Refs, Holds;
  }

  lemma SkippedTracksAreNew(d: Draft)
    requires Sound(d)
    ensures var moved := TrackLease(d.asr) + TrackLease(d.tts);
            && Distinct(moved) && |d.voices.cleanup| <= 8
            && forall l :: l in moved ==> l.ref !in Refs(d.voices.cleanup)
  {
    SoundParts(d);
    QueueRefs(d.voices, {AsrKey, TtsKey}, MAX_CLEANUPS, VoiceRefs(d));
    OwnedOnce(d);
    var moved := TrackLease(d.asr) + TrackLease(d.tts);
    assert forall l :: l in moved <==> l in TrackLease(d.asr) || l in TrackLease(d.tts);
    hide Sound, Valid, ValidPending, Refs;
    if |moved| == 2 {
      assert moved[0].ref in TrackRefs(d.asr) && moved[1].ref in TrackRefs(d.tts);
    }
  }

  lemma ReservesExactly(d: Draft, op: Op)
    requires Sound(d) && (op.ReserveModel? || op.ReserveBridge? || op.ReserveVoice?)
    ensures Perform(d, op).Ok? <==> Admits(d, op)
  {
    hide Sound, ValidPending, Refs, Admitted, Loaded, Holds, ReservePending;
    SoundParts(d);
    match op {
      case ReserveModel(l) => ReserveAdmits(d.models, l, |d.models.cleanup| < MAX_CLEANUPS, {ModelKey}, ModelRefs(d));
      case ReserveBridge(l) => ReserveAdmits(d.bridges, l, |d.bridges.cleanup| < MAX_CLEANUPS, {BridgeKey},
                                             BridgeRefs(d));
      case ReserveVoice(v) =>
        if v.ref.Some? && v.ref.value !in Refs(d.voices.cleanup) {
          VoiceReserveAdmits(d.voices, StageLease(v));
        }
    }
  }

  lemma VoiceReserveAdmits(p: Pending, l: Lease)
    requires l.ref !in Refs(p.cleanup)
    ensures ReservePending(p, l, |p.cleanup| + |p.staging| < MAX_CLEANUPS, MAX_CLEANUPS).Ok? <==>
              !Holds(p.staging, l) && |p.cleanup| + |p.staging| < 8
  {
    NoneHeld(p.cleanup, l);
    hide Holds, Refs, Loaded;
  }

  lemma TracksExactly(d: Draft, op: Op)
    requires Sound(d) && (op.RecordVoice? || op.SkipVoice?)
    ensures Perform(d, op).Ok? <==> Admits(d, op)
  {
    hide Sound, Valid, AppendCleanup, Without, Refs, Holds, Distinct;
    if op.SkipVoice? {
      SkippedTracksAreNew(d);
      AppendsExactly(d.voices.cleanup, TrackLease(d.asr) + TrackLease(d.tts), None);
    } else if op.stage.ref.Some? ==> Holds(d.voices.staging, StageLease(op.stage)) {
      RecordedTrackIsNew(d, op.stage);
      AppendsExactly(d.voices.cleanup, TrackLease(OwnTrack(d, op.stage)), op.stage.ref);
    }
  }

  lemma OthersExactly(d: Draft, op: Op)
    requires op.SaveIdentity? || op.RecordModel? || op.RecordBridge? || op.AckModel? || op.AckBridge? || op.AckVoice?
    ensures Perform(d, op).Ok? <==> Admits(d, op)
  {
    hide Without, Holds, Admitted, Loaded, GoodName;
  }

  lemma AdmitsUpkeep(d: Draft, op: Op)
    requires op.RetireModel? || op.RetireBridge? || op.RecoverModels? || op.RecoverBridges? || op.RecoverVoices?
    ensures Admits(d, op)
  {}

  /** The exact condition of every operation on a sound draft. */
  lemma PerformsExactly(d: Draft, op: Op)
    requires Sound(d)
    ensures Perform(d, op).Ok? <==> Admits(d, op)
  {
    hide *;
    if op.ReserveModel? || op.ReserveBridge? || op.ReserveVoice? {
      ReservesExactly(d, op);
    } else if op.RecordVoice? || op.SkipVoice? {
      TracksExactly(d, op);
    } else if op.RetireModel? || op.RetireBridge? || op.RecoverModels? || op.RecoverBridges? || op.RecoverVoices? {
      RetireExact(d, op);
      AdmitsUpkeep(d, op);
    } else {
      OthersExactly(d, op);
    }
  }

  // -------------------------------------------------------------------------
  // What an accepted operation stores
  // -------------------------------------------------------------------------

  predicate SameIdentity(d: Draft, e: Draft) {
    e.household == d.household && e.agent == d.agent
  }

  predicate SameModel(d: Draft, e: Draft) {
    e.model == d.model && e.models == d.models
  }

  predicate SameBridge(d: Draft, e: Draft) {
    e.bridge == d.bridge && e.bridges == d.bridges
  }

  predicate SameTracks(d: Draft, e: Draft) {
    e.asr == d.asr && e.tts == d.tts && e.latencies == d.latencies && e.skipped == d.skipped
  }

  predicate SameVoice(d: Draft, e: Draft) {
    SameTracks(d, e) && e.voices == d.voices
  }

  /** The operation moved the draft to `step` and counted it. */
  predicate Moves(d: Draft, e: Draft, step: Step) {
    e.revision == d.revision + 1 && e.step == step
  }

  predicate Stays(d: Draft, e: Draft) {
    e.revision == d.revision && e.step == d.step
  }

  /** What the queues of one owner become when a lease is acknowledged or handed to cleanup. */
  ghost predicate Acked(p: Pending, q: Pending, l: Lease, staged: bool) {
    if staged then q.cleanup == p.cleanup && OneOut(p.staging, q.staging, l)
    else q.staging == p.staging && OneOut(p.cleanup, q.cleanup, l)
  }

  ghost predicate Retired(p: Pending, q: Pending, l: Lease) {
    if Holds(p.staging, l) then OneOut(p.staging, q.staging, l) && q.cleanup == p.cleanup + [l] else q == p
  }

  predicate Recovered(p: Pending, q: Pending) {
    q == Pending(p.cleanup + p.staging, [])
  }

  /** The draft that each operation leaves, every field of it. */
  ghost predicate Stores(d: Draft, op: Op, e: Draft) {
    match op
    case SaveIdentity(h, a) =>
      Moves(d, e, Model) && e.household == Some(Trim(h)) && e.agent == Some(Trim(a)) && SameModel(d, e)
      && SameBridge(d, e)
      && SameVoice(d, e)
    case ReserveModel(l) =>
      && Stays(d, e) && SameIdentity(d, e) && SameBridge(d, e) && SameVoice(d, e)
      && e.model == d.model && e.models == Pending(d.models.cleanup, [Loaded(l)])
    case RecordModel(l) =>
      && Moves(d, e, Bridge) && SameIdentity(d, e) && SameBridge(d, e) && SameVoice(d, e)
      && e.model == Some(Loaded(l)) && e.models == Pending(d.models.cleanup, [])
    case ReserveBridge(l) =>
      && Stays(d, e) && SameIdentity(d, e) && SameModel(d, e) && SameVoice(d, e)
      && e.bridge == d.bridge && e.bridges == Pending(d.bridges.cleanup, [Loaded(l)])
    case RecordBridge(l) =>
      && Moves(d, e, Voice) && SameIdentity(d, e) && SameModel(d, e) && SameVoice(d, e)
      && e.bridge == Some(l) && e.bridges == Pending(d.bridges.cleanup, [])
    case ReserveVoice(v) =>
      && Stays(d, e) && SameIdentity(d, e) && SameModel(d, e) && SameBridge(d, e) && SameTracks(d, e)
      && v.ref.Some?
      && e.voices == Pending(d.voices.cleanup, d.voices.staging + [Lease(v.ref.value, Words(v.details), "")])
    case RecordVoice(v) =>
      && Moves(d, e, if e.asr.Some? && e.tts.Some? then Map else Voice)
      && SameIdentity(d, e) && SameModel(d, e) && SameBridge(d, e) && e.skipped == d.skipped
      && (if v.tts then e.tts == Some(Track(v.ref, v.details)) && e.asr == d.asr
          else e.asr == Some(Track(v.ref, v.details)) && e.tts == d.tts)
      && e.latencies == Some(Latencies(e.asr.Some?, e.tts.Some?))
      && e.voices.cleanup == d.voices.cleanup + TrackLease(if v.tts then d.tts else d.asr)
      && (if v.ref.None? then e.voices.staging == d.voices.staging
          else OneOut(d.voices.staging, e.voices.staging, Lease(v.ref.value, Words(v.details), "")))
    case SkipVoice =>
      && Moves(d, e, Map) && SameIdentity(d, e) && SameModel(d, e) && SameBridge(d, e)
      && e.asr == None && e.tts == None && e.latencies == None && e.skipped
      && e.voices == Pending(d.voices.cleanup + TrackLease(d.asr) + TrackLease(d.tts), [])
    case AckModel(l, staged) =>
      && Stays(d, e) && SameIdentity(d, e) && SameBridge(d, e) && SameVoice(d, e) && e.model == d.model
      && Acked(d.models, e.models, l, staged)
    case RetireModel(l) =>
      && Stays(d, e) && SameIdentity(d, e) && SameBridge(d, e) && SameVoice(d, e) && e.model == d.model
      && Retired(d.models, e.models, l)
    case RecoverModels =>
      && Stays(d, e) && SameIdentity(d, e) && SameBridge(d, e) && SameVoice(d, e) && e.model == d.model
      && Recovered(d.models, e.models)
    case AckBridge(l, staged) =>
      && Stays(d, e) && SameIdentity(d, e) && SameModel(d, e) && SameVoice(d, e) && e.bridge == d.bridge
      && Acked(d.bridges, e.bridges, l, staged)
    case RetireBridge(l) =>
      && Stays(d, e) && SameIdentity(d, e) && SameModel(d, e) && SameVoice(d, e) && e.bridge == d.bridge
      && Retired(d.bridges, e.bridges, l)
    case RecoverBridges =>
      && Stays(d, e) && SameIdentity(d, e) && SameModel(d, e) && SameVoice(d, e) && e.bridge == d.bridge
      && Recovered(d.bridges, e.bridges)
    case AckVoice(l, staged) =>
      && Stays(d, e) && SameIdentity(d, e) && SameModel(d, e) && SameBridge(d, e) && SameTracks(d, e)
      && Acked(d.voices, e.voices, l, staged)
    case RecoverVoices =>
      && Stays(d, e) && SameIdentity(d, e) && SameModel(d, e) && SameBridge(d, e) && SameTracks(d, e)
      && Recovered(d.voices, e.voices)
  }

  lemma AcksOne(p: Pending, l: Lease, staged: bool, kinds: set<Kind>, max: nat, active: set<Ref>)
    requires ValidPending(p, kinds, max, active)
    ensures Acked(p, AckPending(p, l, staged), l, staged)
  {
    TakesOneOut(if staged then p.staging else p.cleanup, l);
    hide Without, Holds, OneOut;
  }

  lemma HeldIsNew(p: Pending, l: Lease, kinds: set<Kind>, max: nat, active: set<Ref>)
    requires ValidPending(p, kinds, max, active) && Apart(p) && Holds(p.staging, l)
    ensures l.ref !in Refs(p.cleanup) && l.ref !in active
  {
    QueueRefs(p, kinds, max, active);
    InStaging(p.staging, l);
    MemberRefs(p.staging);
    hide ValidPending, Refs, Holds;
  }

  lemma RetiresOne(p: Pending, l: Lease, kinds: set<Kind>, max: nat, skip: Option<Ref>, active: set<Ref>)
    requires ValidPending(p, kinds, max, active) && Apart(p) && Roomy(p) && (skip.Some? ==> skip.value in active)
    ensures var r := RetirePending(p, l, skip); r.Ok? && Retired(p, r.value, l)
  {
    TakesOneOut(p.staging, l);
    if Holds(p.staging, l) {
      HeldIsNew(p, l, kinds, max, active);
      HeldIsSome(p.staging, l);
      AppendsExactly(p.cleanup, [l], skip);
    }
    hide Without, Holds, OneOut, Refs, ValidPending, AppendCleanup;
  }

  lemma StagedAreNew(p: Pending, kinds: set<Kind>, max: nat, active: set<Ref>)
    requires ValidPending(p, kinds, max, active) && Apart(p)
    ensures Distinct(p.staging) && |p.cleanup| <= 8 && forall l :: l in p.staging ==>
            l.ref !in active && l.ref !in Refs(p.cleanup)
  {
    QueueRefs(p, kinds, max, active);
    MemberRefs(p.staging);
    hide ValidPending, Refs;
  }

  lemma RecoversAll(p: Pending, kinds: set<Kind>, max: nat, skip: Option<Ref>, active: set<Ref>)
    requires ValidPending(p, kinds, max, active) && Apart(p) && Roomy(p) && (skip.Some? ==> skip.value in active)
    ensures var r := RecoverPending(p, skip); r.Ok? && Recovered(p, r.value)
  {
    StagedAreNew(p, kinds, max, active);
    AppendsExactly(p.cleanup, p.staging, skip);
    hide Refs, ValidPending, AppendCleanup;
  }

  lemma LoadedWords(l: Lease)
    ensures l.details.Words? ==> Loaded(l) == l
  {}

  lemma ReserveStores(d: Draft, op: Op, e: Draft)
    requires Sound(d) && (op.ReserveModel? || op.ReserveBridge? || op.ReserveVoice?) && Perform(d, op) == Ok(e)
    ensures Stores(d, op, e)
  {
    hide Sound, Holds, Admitted, Loaded, Refs, VoiceRefs;
    ReservesExactly(d, op);
    if op.ReserveVoice? {
      LoadedWords(StageLease(op.stage));
    }
  }

  /** A queue of one is empty once its lease is out. */
  lemma OneOutOfOne(p: Pending, l: Lease, kinds: set<Kind>, active: set<Ref>)
    requires ValidPending(p, kinds, 1, active) && Holds(p.staging, l)
    ensures Without(p.staging, l) == []
  {
    HeldIsSome(p.staging, l);
    assert |p.staging| == 1;
    assert |Without(p.staging, l)| < 1;
  }

  lemma RecordStores(d: Draft, op: Op, e: Draft)
    requires Sound(d) && (op.RecordModel? || op.RecordBridge?) && Perform(d, op) == Ok(e)
    ensures Stores(d, op, e)
  {
    hide Sound, Holds, Admitted, Loaded, Without;
    SoundParts(d);
    if op.RecordModel? {
      OneOutOfOne(d.models, op.lease, {ModelKey}, ModelRefs(d));
    } else {
      OneOutOfOne(d.bridges, op.lease, {BridgeKey}, BridgeRefs(d));
    }
  }

  lemma UpkeepStores(d: Draft, op: Op, e: Draft)
    requires Sound(d) && Perform(d, op) == Ok(e)
    requires op.AckModel? || op.AckBridge? || op.AckVoice? || op.RetireModel? || op.RetireBridge?
             || op.RecoverModels? || op.RecoverBridges? || op.RecoverVoices?
    ensures Stores(d, op, e)
  {
    hide Sound, Valid, ValidPending, Apart, Roomy, AckPending, RetirePending, RecoverPending, Acked, Retired, Recovered;
    SoundParts(d);
    ActiveRef(d);
    match op
    case AckModel(l, staged) => AcksOne(d.models, l, staged, {ModelKey}, 1, ModelRefs(d));
    case AckBridge(l, staged) => AcksOne(d.bridges, l, staged, {BridgeKey}, 1, BridgeRefs(d));
    case AckVoice(l, staged) => AcksOne(d.voices, l, staged, {AsrKey, TtsKey}, MAX_CLEANUPS, VoiceRefs(d));
    case RetireModel(l) => RetiresOne(d.models, l, {ModelKey}, 1, ModelRef(d), ModelRefs(d));
    case RetireBridge(l) => RetiresOne(d.bridges, l, {BridgeKey}, 1, BridgeRef(d), BridgeRefs(d));
    case RecoverModels => RecoversAll(d.models, {ModelKey}, 1, ModelRef(d), ModelRefs(d));
    case RecoverBridges => RecoversAll(d.bridges, {BridgeKey}, 1, BridgeRef(d), BridgeRefs(d));
    case RecoverVoices => RecoversAll(d.voices, {AsrKey, TtsKey}, MAX_CLEANUPS, None, VoiceRefs(d));
  }

  /** The fields that a recorded track leaves, apart from the queues. */
  lemma VoiceFields(d: Draft, v: VoiceStage, e: Draft)
    requires Perform(d, RecordVoice(v)) == Ok(e)
    ensures SameIdentity(d, e) && SameModel(d, e) && SameBridge(d, e) && e.skipped == d.skipped
    ensures Moves(d, e, if e.asr.Some? && e.tts.Some? then Map else Voice)
    ensures if v.tts then e.tts == Some(Track(v.ref, v.details)) && e.asr == d.asr
            else e.asr == Some(Track(v.ref, v.details)) && e.tts == d.tts
    ensures var before := if d.latencies.Some? then d.latencies.value else Latencies(false, false);
            e.latencies == Some(if v.tts then before.(tts := true) else before.(asr := true))
  {
    hide AppendCleanup, Holds, Without;
  }

  lemma VoiceQueue(d: Draft, v: VoiceStage, e: Draft)
    requires Sound(d) && Perform(d, RecordVoice(v)) == Ok(e)
    ensures e.voices.cleanup == d.voices.cleanup + TrackLease(OwnTrack(d, v))
    ensures if v.ref.None? then e.voices.staging == d.voices.staging
            else OneOut(d.voices.staging, e.voices.staging, StageLease(v))
  {
    hide *;
    RecordedShape(d, v, e);
    RecordedTrackIsNew(d, v);
    AppendsExactly(d.voices.cleanup, TrackLease(OwnTrack(d, v)), v.ref);
    KeptVoicesAre(d, v);
    if v.ref.Some? {
      DistinctStaging(d);
      TakesOneOut(d.voices.staging, StageLease(v));
    }
  }

  lemma KeptVoicesAre(d: Draft, v: VoiceStage)
    ensures KeptVoices(d, v) == if v.ref.Some? then Without(d.voices.staging, StageLease(v)) else d.voices.staging
  {}

  lemma VoiceStores(d: Draft, v: VoiceStage, e: Draft)
    requires Sound(d) && Perform(d, RecordVoice(v)) == Ok(e)
    ensures Stores(d, RecordVoice(v), e)
  {
    hide Sound, Perform, OneOut, Moves, SameIdentity, SameModel, SameBridge;
    LatenciesMatch(d);
    VoiceFields(d, v, e);
    VoiceQueue(d, v, e);
  }

  lemma DistinctStaging(d: Draft)
    requires Sound(d)
    ensures Distinct(d.voices.staging)
  {}

  lemma LatenciesMatch(d: Draft)
    requires Sound(d)
    ensures d.latencies.Some? ==> d.latencies.value == Latencies(d.asr.Some?, d.tts.Some?)
    ensures d.latencies.None? ==> d.asr.None? && d.tts.None?
  {}

  lemma SkipFields(d: Draft, e: Draft)
    requires Perform(d, SkipVoice) == Ok(e)
    ensures Moves(d, e, Map) && SameIdentity(d, e) && SameModel(d, e) && SameBridge(d, e)
    ensures e.asr == None && e.tts == None && e.latencies == None && e.skipped
    ensures d.voices.staging == [] && e.voices.staging == []
            && AppendCleanup(d.voices.cleanup, TrackLease(d.asr) + TrackLease(d.tts), None) == Ok(e.voices.cleanup)
  {
    hide AppendCleanup, TrackLease;
  }

  lemma SkipStores(d: Draft, e: Draft)
    requires Sound(d) && Perform(d, SkipVoice) == Ok(e)
    ensures Stores(d, SkipVoice, e)
  {
    hide Sound, AppendCleanup, Refs, Perform, Distinct, TrackLease, Moves, SameIdentity, SameModel, SameBridge;
    SkipFields(d, e);
    SkippedTracksAreNew(d);
    AppendsExactly(d.voices.cleanup, TrackLease(d.asr) + TrackLease(d.tts), None);
    assert d.voices.cleanup + (TrackLease(d.asr) + TrackLease(d.tts))
           == d.voices.cleanup + TrackLease(d.asr) + TrackLease(d.tts);
  }

  /** Every field of what an accepted operation leaves of a sound draft. */
  lemma StoresExactly(d: Draft, op: Op, e: Draft)
    requires Sound(d) && Perform(d, op) == Ok(e)
    ensures Stores(d, op, e)
  {
    hide *;
    match op {
      case SaveIdentity(_, _) => IdentityStores(d, op, e);
      case ReserveModel(_) => ReserveStores(d, op, e);
      case ReserveBridge(_) => ReserveStores(d, op, e);
      case ReserveVoice(_) => ReserveStores(d, op, e);
      case RecordModel(_) => RecordStores(d, op, e);
      case RecordBridge(_) => RecordStores(d, op, e);
      case RecordVoice(v) => VoiceStores(d, v, e);
      case SkipVoice => SkipStores(d, e);
      case _ => UpkeepStores(d, op, e);
    }
  }

  lemma IdentityStores(d: Draft, op: Op, e: Draft)
    requires op.SaveIdentity? && Perform(d, op) == Ok(e)
    ensures Stores(d, op, e)
  {}

  // -------------------------------------------------------------------------
  // The store: when a call is accepted and what it writes
  // -------------------------------------------------------------------------

  /** Acknowledging, retiring and recovering are the store's own; the rest is a request's. */
  predicate Maintenance(op: Op) {
    match op
    case AckModel(_, _) => true
    case AckBridge(_, _) => true
    case AckVoice(_, _) => true
    case RetireModel(_) => true
    case RetireBridge(_) => true
    case RecoverModels => true
    case RecoverBridges => true
    case RecoverVoices => true
    case _ => false
  }

  /** The session a request names is the stored one and has not ended. */
  predicate InSession(s: Stored, token: nat, now: nat) {
    token == s.token && now < s.expires
  }

  /** The exact answer of a call: its refusals told apart, the condition of its success and
      every field of what it then writes. */
  lemma CallsExactly(s: Option<Stored>, c: Call)
    requires SoundStore(s)
    ensures var r := Answer(s, c);
            match c
            case Establish(token, expires, now, _) =>
              r == if now < expires then Ok(Stored(token, expires, if s.Some? then s.value.draft else FirstDraft))
                   else Err(BadInput)
            case Request(op, token, revision, now, _) =>
              && (r.Ok? <==> && s.Some? && Admits(s.value.draft, op)
                             && (Maintenance(op)
                                 || (InSession(s.value, token, now) && revision == s.value.draft.revision)))
              && (r.Ok? ==> && r.value.token == s.value.token && r.value.expires == s.value.expires
                            && Stores(s.value.draft, op, r.value.draft))
              && (r == Err(Expired) <==> s.None? || (!Maintenance(op) && !InSession(s.value, token, now)))
              && (r == Err(RevisionConflict) <==>
                  s.Some? && !Maintenance(op) && InSession(s.value, token, now) && revision != s.value.draft.revision)
  {
    hide Sound, Valid, Perform, Admits, Stores;
    if s.Some? {
      SoundIsValid(s.value.draft);
      if c.Request? {
        PerformsExactly(s.value.draft, c.op);
        PerformNeedsNoSession(s.value.draft, c.op);
        if Perform(s.value.draft, c.op).Ok? {
          StoresExactly(s.value.draft, c.op, Perform(s.value.draft, c.op).value);
        }
      }
    }
  }

  lemma PerformNeedsNoSession(d: Draft, op: Op)
    ensures Perform(d, op) != Err(Expired) && Perform(d, op) != Err(RevisionConflict)
    ensures NeedsSession(op) <==> !Maintenance(op)
  {
    AppendRefuses(d.voices.cleanup, TrackLease(d.asr), None);
    forall ls, removed, active
      ensures var r := AppendCleanup(ls, removed, active); r.Ok? || r.error == BacklogFull
    {
      AppendRefuses(ls, removed, active);
    }
    hide AppendCleanup, Without, Holds;
  }

  lemma {:induction false} AppendRefuses(ls: seq<Lease>, removed: seq<Lease>, active: Option<Ref>)
    ensures var r := AppendCleanup(ls, removed, active); r.Ok? || r.error == BacklogFull
    decreases |removed|
  {
    if removed != [] {
      AppendRefuses(ls, removed[1..], active);
      AppendRefuses(ls + [removed[0]], removed[1..], active);
    }
  }

  // -------------------------------------------------------------------------
  // What a draft holds after any run
  // -------------------------------------------------------------------------

  datatype Part = Names | ModelPart | BridgePart | AsrPart | TtsPart | SkipPart

  datatype Held =
    | OfNames(household: Option<string>, agent: Option<string>)
    | OfEvidence(lease: Option<Lease>)
    | OfTrack(track: Option<Track>)
    | OfSkip(skipped: bool)

  function Content(d: Draft, part: Part): Held {
    match part
    case Names => OfNames(d.household, d.agent)
    case ModelPart => OfEvidence(d.model)
    case BridgePart => OfEvidence(d.bridge)
    case AsrPart => OfTrack(d.asr)
    case TtsPart => OfTrack(d.tts)
    case SkipPart => OfSkip(d.skipped)
  }

  /** What an operation puts into a part, if it is one that does. */
  function Puts(op: Op, part: Part): Option<Held> {
    match (op, part)
    case (SaveIdentity(h, a), Names) => Some(OfNames(Some(Trim(h)), Some(Trim(a))))
    case (RecordModel(l), ModelPart) => Some(OfEvidence(Some(Loaded(l))))
    case (RecordBridge(l), BridgePart) => Some(OfEvidence(Some(l)))
    case (RecordVoice(VoiceStage(false, ref, details)), AsrPart) => Some(OfTrack(Some(Track(ref, details))))
    case (RecordVoice(VoiceStage(true, ref, details)), TtsPart) => Some(OfTrack(Some(Track(ref, details))))
    case (SkipVoice, AsrPart) => Some(OfTrack(None))
    case (SkipVoice, TtsPart) => Some(OfTrack(None))
    case (SkipVoice, SkipPart) => Some(OfSkip(true))
    case _ => None
  }

  /** The draft of a store; a store without one starts from the first. */
  function DraftOf(s: Option<Stored>): Draft {
    if s.Some? then s.value.draft else FirstDraft
  }

  /** Call `i` of the run was accepted, its write reached the file and put something into
      the part. */
  predicate Fills(s: Option<Stored>, calls: seq<Call>, part: Part, i: nat)
    requires i < |calls|
  {
    && Answer(AfterAll(s, calls[..i]), calls[i]).Ok? && calls[i].fault != Refused
    && calls[i].Request? && Puts(calls[i].op, part).Some?
  }

  lemma PerformPuts(d: Draft, op: Op, e: Draft, part: Part)
    requires Perform(d, op) == Ok(e)
    ensures Content(e, part) == if Puts(op, part).Some? then Puts(op, part).value else Content(d, part)
  {
    hide AppendCleanup, Without, Holds, Loaded, Admitted;
  }

  lemma CallPuts(s: Option<Stored>, c: Call, part: Part)
    ensures var filled := Answer(s, c).Ok? && c.fault != Refused && c.Request? && Puts(c.op, part).Some?;
            Content(DraftOf(After(s, c)), part) == if filled then Puts(c.op, part).value else Content(DraftOf(s), part)
  {
    hide Valid, Perform, FirstDraft, Content, Puts;
    if s.Some? && c.Request? && Perform(s.value.draft, c.op).Ok? {
      PerformPuts(s.value.draft, c.op, Perform(s.value.draft, c.op).value, part);
    }
  }

  /** After any run of calls, under any faults and whatever draft it starts from, each part
      holds exactly what the last call that filled it was given, and what it held at the
      start if there was none. */
  lemma {:induction false} HoldsWhatWasGiven(s: Option<Stored>, calls: seq<Call>, part: Part)
    ensures (forall i :: 0 <= i < |calls| ==> !Fills(s, calls, part, i)) ==>
              Content(DraftOf(AfterAll(s, calls)), part) == Content(DraftOf(s), part)
    ensures forall i :: 0 <= i < |calls| && Fills(s, calls, part, i)
                        && (forall j :: i < j < |calls| ==> !Fills(s, calls, part, j)) ==>
              Puts(calls[i].op, part) == Some(Content(DraftOf(AfterAll(s, calls)), part))
    decreases |calls|
  {
    hide Answer, After, Content, Puts, DraftOf;
    if calls != [] {
      var n := |calls| - 1;
      var before, c := calls[..n], calls[n];
      assert calls == before + [c];
      HoldsWhatWasGiven(s, before, part);
      AfterOneMore(s, before, c);
      CallPuts(AfterAll(s, before), c, part);
      assert Fills(s, calls, part, n) <==> Answer(AfterAll(s, before), c).Ok? && c.fault != Refused && c.Request?
                                           && Puts(c.op, part).Some?;
      forall i | 0 <= i < n
        ensures Fills(s, calls, part, i) == Fills(s, before, part, i)
      {
        assert calls[..i] == before[..i];
      }
    }
  }

  /** Call `i` filled the part and no later one did. */
  predicate FillsLast(s: Option<Stored>, calls: seq<Call>, part: Part, i: nat)
    requires i < |calls|
  {
    Fills(s, calls, part, i) && forall j :: i < j < |calls| ==> !Fills(s, calls, part, j)
  }

  lemma {:induction false} SomeFillsLast(s: Option<Stored>, calls: seq<Call>, part: Part, i: nat)
    requires i < |calls| && Fills(s, calls, part, i)
    ensures exists k :: 0 <= k < |calls| && FillsLast(s, calls, part, k)
    decreases |calls| - i
  {
    hide Fills;
    if !FillsLast(s, calls, part, i) {
      var j :| i < j < |calls| && Fills(s, calls, part, j);
      SomeFillsLast(s, calls, part, j);
    }
  }

  /** Some call was the last to fill the part, and the draft holds what that call was given. */
  ghost predicate WasGiven(s: Option<Stored>, calls: seq<Call>, d: Draft, part: Part) {
    exists i :: 0 <= i < |calls| && FillsLast(s, calls, part, i) && Puts(calls[i].op, part) == Some(Content(d, part))
  }

  lemma ChangedParts(s: Option<Stored>, calls: seq<Call>, part: Part)
    requires Content(DraftOf(AfterAll(s, calls)), part) != Content(DraftOf(s), part)
    ensures WasGiven(s, calls, DraftOf(AfterAll(s, calls)), part)
  {
    hide Content, Puts, DraftOf;
    HoldsWhatWasGiven(s, calls, part);
    var i :| 0 <= i < |calls| && Fills(s, calls, part, i);
    SomeFillsLast(s, calls, part, i);
  }

  lemma MapIsFilled(d: Draft)
    requires Sound(d) && d.step == Map
    ensures forall part :: part != SkipPart && (!d.skipped || (part != AsrPart && part != TtsPart)) ==>
              Content(d, part) != Content(FirstDraft, part)
    ensures d.skipped ==> Content(d, SkipPart) != Content(FirstDraft, SkipPart)
  {
    hide ValidPending, Evident;
  }

  /** Nothing on the map is made up: whatever faults a careful run has met, the identity, the
      model and the bridge that it ends with are those of the last accepted calls that gave
      them, and the tracks are too, unless voice was skipped by an accepted call. */
  lemma MapHoldsWhatWasGiven(calls: seq<Call>)
    requires CarefulRun(None, calls) && AtMap(AfterAll(None, calls))
    ensures var d := AfterAll(None, calls).value.draft;
            && WasGiven(None, calls, d, Names) && WasGiven(None, calls, d, ModelPart)
            && WasGiven(None, calls, d, BridgePart)
            && (if d.skipped then WasGiven(None, calls, d, SkipPart)
                else WasGiven(None, calls, d, AsrPart) && WasGiven(None, calls, d, TtsPart))
  {
    hide Sound, Content, Puts, AfterAll, CarefulRun, WasGiven, FirstDraft;
    var d := AfterAll(None, calls).value.draft;
    CarefulRunReloads(None, calls);
    MapIsFilled(d);
    forall part | Content(d, part) != Content(FirstDraft, part)
      ensures WasGiven(None, calls, d, part)
    {
      ChangedParts(None, calls, part);
    }
  }
}
