/** The durable setup draft: its reload check, every operation that writes it, and when
    what an operation writes is accepted by the next reload. */
module SetupDrafts {
  import opened Wrappers

  // -------------------------------------------------------------------------
  // Leases and the queues that own them
  // -------------------------------------------------------------------------

  datatype Kind = ModelKey | BridgeKey | AsrKey | TtsKey

  /** A locator of one kind; `nonce` is what follows its fixed prefix. */
  datatype Ref = Ref(kind: Kind, nonce: string)

  datatype Details = Words(text: string) | ModelStage(provider: string, modelId: string)

  /** A credential-backed stage. `details` is what an exact comparison looks at beside the
      locator; `extra` is what it does not (the base URL of a model stage). */
  datatype Lease = Lease(ref: Ref, details: Details, extra: string)

  predicate Same(a: Lease, b: Lease) {
    a.ref == b.ref && a.details == b.details
  }

  /** What an owner still has to delete and what it has handed out for writing. */
  datatype Pending = Pending(cleanup: seq<Lease>, staging: seq<Lease>)

  const Nothing := Pending([], [])

  const MAX_CLEANUPS := 8

  datatype Result<+T> = Ok(value: T) | Err(error: Error)

  datatype Error =
    | Expired
    | RevisionConflict
    | StageConflict
    | BadInput
    | LeaseInvalid
    | BacklogFull
    | LeaseMissing
    | Unreadable

  function Refs(ls: seq<Lease>): set<Ref> {
    set l | l in ls :: l.ref
  }

  predicate Distinct(ls: seq<Lease>) {
    forall i, j :: 0 <= i < j < |ls| ==> ls[i].ref != ls[j].ref
  }

  predicate Holds(ls: seq<Lease>, l: Lease) {
    exists x :: x in ls && Same(x, l)
  }

  function Without(ls: seq<Lease>, l: Lease): (r: seq<Lease>)
    ensures forall x :: x in r <==> x in ls && !Same(x, l)
    ensures |r| <= |ls| && (Holds(ls, l) ==> |r| < |ls|)
  {
    if ls == [] then []
    else
      assert forall x :: x in ls <==> x == ls[0] || x in ls[1..];
      if Same(ls[0], l) then Without(ls[1..], l) else [ls[0]] + Without(ls[1..], l)
  }

  lemma {:induction false} WithoutDistinct(ls: seq<Lease>, l: Lease)
    requires Distinct(ls)
    ensures Distinct(Without(ls, l))
  {
    if ls != [] {
      WithoutDistinct(ls[1..], l);
      var rest := Without(ls[1..], l);
      forall j | 0 <= j < |rest|
        ensures rest[j].ref != ls[0].ref
      {
        assert rest[j] in ls[1..];
      }
    }
  }

  /** Appends each removed lease that is neither active nor queued already; refuses what the
      backlog cannot take. */
  function AppendCleanup(cleanup: seq<Lease>, removed: seq<Lease>, active: Option<Ref>): Result<seq<Lease>>
    decreases |removed|
  {
    if removed == [] then Ok(cleanup)
    else if active == Some(removed[0].ref) || removed[0].ref in Refs(cleanup)
         then AppendCleanup(cleanup, removed[1..], active)
    else if |cleanup| >= MAX_CLEANUPS then Err(BacklogFull)
    else AppendCleanup(cleanup + [removed[0]], removed[1..], active)
  }

  /** The source's own loop, over a local list and a set of the locators in it. */
  method AppendedCleanup(cleanup: seq<Lease>, removed: seq<Lease>, active: Option<Ref>) returns (r: Result<seq<Lease>>)
    ensures r == AppendCleanup(cleanup, removed, active)
  {
    var list := cleanup;
    var locators := Refs(cleanup);
    var i := 0;
    while i < |removed|
      invariant 0 <= i <= |removed|
      invariant locators == Refs(list)
      invariant AppendCleanup(list, removed[i..], active) == AppendCleanup(cleanup, removed, active)
    {
      var l := removed[i];
      assert removed[i..][1..] == removed[i + 1..];
      if active != Some(l.ref) && l.ref !in locators {
        if |list| >= MAX_CLEANUPS {
          return Err(BacklogFull);
        }
        list := list + [l];
        locators := locators + {l.ref};
      }
      i := i + 1;
    }
    return Ok(list);
  }

  /** What appending does, whatever the order: the removed locators join the queue, nothing
      leaves it, and it succeeds whenever there is room for all of them. */
  lemma {:induction false} AppendCleanupEffect(cleanup: seq<Lease>, removed: seq<Lease>, active: Option<Ref>)
    requires Distinct(cleanup) && |cleanup| <= MAX_CLEANUPS
    ensures var r := AppendCleanup(cleanup, removed, active);
            && (r.Ok? ==> && Distinct(r.value) && |r.value| <= MAX_CLEANUPS && |r.value| <= |cleanup| + |removed|
                          && Refs(r.value) == Refs(cleanup) + (Refs(removed) - (if active.Some? then {active.value}
                                                                                else {}))
                          && (forall l :: l in r.value ==> l in cleanup || l in removed)
                          && (forall l :: l in cleanup ==> l in r.value))
            && (|cleanup| + |removed| <= MAX_CLEANUPS ==> r.Ok?)
    decreases |removed|
  {
    if removed != [] {
      assert forall l :: l in removed <==> l == removed[0] || l in removed[1..];
      if active == Some(removed[0].ref) || removed[0].ref in Refs(cleanup) {
        AppendCleanupEffect(cleanup, removed[1..], active);
      } else if |cleanup| < MAX_CLEANUPS {
        var next := cleanup + [removed[0]];
        assert forall l :: l in next <==> l in cleanup || l == removed[0];
        assert forall i :: 0 <= i < |cleanup| ==> cleanup[i] in cleanup;
        AppendCleanupEffect(next, removed[1..], active);
      }
    }
  }

  // -------------------------------------------------------------------------
  // Model stages: the check that admits one, and the one a reload makes of evidence
  // -------------------------------------------------------------------------

  /** What `trim` removes and what a pattern means by white space. */
  predicate Blank(c: char) {
    '\U{9}' <= c <= '\U{d}' || c == ' ' || c == '\U{a0}' || c == '\U{1680}' || '\U{2000}' <= c <= '\U{200a}'
    || c == '\U{2028}' || c == '\U{2029}' || c == '\U{202f}' || c == '\U{205f}' || c == '\U{3000}' || c == '\U{feff}'
  }

  predicate NoBlank(s: string) {
    forall c :: c in s ==> !Blank(c)
  }

  function Trim(s: string): (r: string)
    ensures |r| <= |s| && (NoBlank(s) ==> r == s)
    ensures r != "" ==> !Blank(r[0]) && !Blank(r[|r| - 1])
    decreases |s|
  {
    if s == "" then ""
    else if Blank(s[0]) then assert s[0] in s; Trim(s[1..])
    else if Blank(s[|s| - 1]) then assert s[|s| - 1] in s; Trim(s[..|s| - 1])
    else s
  }

  predicate Bounded(s: string, max: nat) {
    Trim(s) != "" && |s| <= max
  }

  predicate WordChar(c: char) {
    'A' <= c <= 'Z' || 'a' <= c <= 'z' || '0' <= c <= '9' || c == '_' || c == '-'
  }

  predicate Word(s: string) {
    s != "" && forall c :: c in s ==> WordChar(c)
  }

  /** The check that every operation on a model stage, and every reload of a queue, makes. */
  predicate Admitted(l: Lease) {
    && l.ref.kind == ModelKey && l.details.ModelStage?
    && Bounded(l.details.provider, 64) && Bounded(l.details.modelId, 256)
  }

  /** A stage as the next load returns it: its strings are trimmed. */
  function Loaded(l: Lease): Lease {
    if l.details.ModelStage? then l.(details := ModelStage(Trim(l.details.provider), Trim(l.details.modelId))) else l
  }

  /** What a reload asks of evidence beside that. */
  predicate Strict(l: Lease) {
    l.details.ModelStage? ==> Word(l.ref.nonce) && Word(l.details.provider) && NoBlank(l.details.modelId)
  }

  predicate Evident(l: Lease) {
    Admitted(l) && Strict(l)
  }

  /** The evidence check implies the other one, but not the other way round. */
  lemma StrictIsStronger()
    ensures forall l :: Evident(l) ==> Admitted(l)
    ensures Admitted(SpacedLease) && !Evident(SpacedLease)
  {
    assert ' ' in SpacedLease.details.modelId;
    assert Trim("gpt") == "gpt" && Trim("gpt 4") == "gpt 4";
  }

  const SpacedLease := Lease(Ref(ModelKey, "1"), ModelStage("gpt", "gpt 4"), "")

  predicate AllBlank(s: string) {
    forall i :: 0 <= i < |s| ==> Blank(s[i])
  }

  /** Trimming takes blanks off both ends and nothing else. */
  lemma {:induction false} TrimCutsBlanks(s: string) returns (before: string, after: string)
    ensures s == before + Trim(s) + after && AllBlank(before) && AllBlank(after)
    decreases |s|
  {
    hide Blank, NoBlank, Trim;
    TrimIs(s);
    before, after := "", "";
    if s != "" && Blank(s[0]) {
      before, after := TrimCutsBlanks(s[1..]);
      assert s == [s[0]] + (before + Trim(s) + after);
      before := [s[0]] + before;
    } else if s != "" && Blank(s[|s| - 1]) {
      before, after := TrimCutsBlanks(s[..|s| - 1]);
      assert s == (before + Trim(s) + after) + [s[|s| - 1]];
      after := after + [s[|s| - 1]];
    }
  }

  lemma TrimIs(s: string)
    ensures Trim(s) == if s == "" then "" else if Blank(s[0]) then Trim(s[1..])
                       else if Blank(s[|s| - 1]) then Trim(s[..|s| - 1]) else s
  {
    hide Blank;
  }

  lemma TrimTwice(s: string)
    ensures Trim(Trim(s)) == Trim(s)
  {}

  /** Loading keeps what was admitted, once and for all. */
  lemma LoadedStays(l: Lease)
    ensures Loaded(l).ref == l.ref && Loaded(Loaded(l)) == Loaded(l)
    ensures Admitted(l) ==> Admitted(Loaded(l))
    ensures Admitted(l) && Strict(l) ==> Loaded(l) == l
  {
    if l.details.ModelStage? {
      TrimTwice(l.details.provider);
      TrimTwice(l.details.modelId);
      WordsAreTight(l.details.provider);
    }
  }

  lemma LoadedFits(l: Lease, kinds: set<Kind>)
    requires Fits(l, kinds)
    ensures Fits(Loaded(l), kinds)
  {
    LoadedStays(l);
    hide Admitted, Loaded;
  }

  lemma WordsAreTight(s: string)
    ensures Word(s) ==> NoBlank(s)
  {}

  // What the input check and the staging of the controller produce.

  datatype Provider = Gpt | Claude | Deepseek | Kimi | Glm | Custom

  function ProviderName(p: Provider): string {
    match p
    case Gpt => "gpt"
    case Claude => "claude"
    case Deepseek => "deepseek"
    case Kimi => "kimi"
    case Glm => "glm"
    case Custom => "custom"
  }

  /** What the input check asks of a model id. */
  predicate GoodModelId(modelId: string) {
    1 <= |modelId| <= 256 && NoBlank(modelId)
  }

  /** A prepared and staged model; `None` when the input check or the staging refuses. */
  function PreparedStage(p: Provider, modelId: string, nonce: string, baseUrl: string): Option<Lease> {
    if GoodModelId(modelId) && Word(nonce) && |nonce| <= 128 && nonce[0] != '_' && nonce[0] != '-'
    then Some(Lease(Ref(ModelKey, nonce), ModelStage(ProviderName(p), modelId), baseUrl))
    else None
  }

  /** Whatever the controller stages is what was entered, meets both checks and is what the
      next load returns. */
  lemma PreparedIsEvident(p: Provider, modelId: string, nonce: string, baseUrl: string)
    ensures var l := PreparedStage(p, modelId, nonce, baseUrl);
            l.Some? ==> && Evident(l.value) && Loaded(l.value) == l.value && l.value.ref == Ref(ModelKey, nonce)
                        && l.value.details == ModelStage(ProviderName(p), modelId) && l.value.extra == baseUrl
  {
    ProviderIsWord(p);
    WordsAreTight(ProviderName(p));
  }

  lemma ProviderIsWord(p: Provider)
    ensures Word(ProviderName(p)) && 1 <= |ProviderName(p)| <= 64
  {}

  // -------------------------------------------------------------------------
  // The draft
  // -------------------------------------------------------------------------

  datatype Step = Identity | Model | Bridge | Voice | Map

  datatype Track = Track(ref: Option<Ref>, details: string)

  datatype Latencies = Latencies(asr: bool, tts: bool)

  datatype Draft = Draft(
    revision: nat, step: Step, household: Option<string>, agent: Option<string>,
    model: Option<Lease>, models: Pending,
    bridge: Option<Lease>, bridges: Pending,
    asr: Option<Track>, tts: Option<Track>, latencies: Option<Latencies>, skipped: bool, voices: Pending)

  predicate AtLeast(s: Step, t: Step) {
    match t
    case Identity => true
    case Model => s != Identity
    case Bridge => s == Bridge || s == Voice || s == Map
    case Voice => s == Voice || s == Map
    case Map => s == Map
  }

  /** A name is kept without blanks around it. */
  predicate GoodName(name: string) {
    var t := Trim(name);
    1 <= |t| <= 40 && forall c :: c in t ==> c >= ' ' && c != '\U{7f}'
  }

  predicate GoodNames(household: Option<string>, agent: Option<string>) {
    (household.Some? ==> GoodName(household.value)) && (agent.Some? ==> GoodName(agent.value))
  }

  predicate HasVoice(d: Draft) {
    d.asr.Some? || d.tts.Some?
  }

  predicate CompleteVoice(d: Draft) {
    d.asr.Some? && d.tts.Some?
  }

  function TrackRefs(t: Option<Track>): set<Ref> {
    if t.Some? && t.value.ref.Some? then {t.value.ref.value} else {}
  }

  function VoiceRefs(d: Draft): set<Ref> {
    TrackRefs(d.asr) + TrackRefs(d.tts)
  }

  function ModelRefs(d: Draft): set<Ref> {
    if d.model.Some? then {d.model.value.ref} else {}
  }

  function BridgeRefs(d: Draft): set<Ref> {
    if d.bridge.Some? then {d.bridge.value.ref} else {}
  }

  predicate Fits(l: Lease, kinds: set<Kind>) {
    l.ref.kind in kinds && (l.ref.kind == ModelKey ==> Admitted(l))
  }

  predicate ValidQueue(ls: seq<Lease>, kinds: set<Kind>, max: nat) {
    |ls| <= max && Distinct(ls) && forall l :: l in ls ==> Fits(l, kinds)
  }

  /** The two queues of one owner: bounded, without duplicates, apart from each other and
      from what is active. */
  predicate ValidPending(p: Pending, kinds: set<Kind>, maxStaging: nat, active: set<Ref>) {
    && ValidQueue(p.cleanup, kinds, MAX_CLEANUPS) && ValidQueue(p.staging, kinds, maxStaging)
    && (forall l :: l in p.cleanup + p.staging ==> l.ref !in active)
    && (forall l :: l in p.cleanup ==> !Holds(p.staging, l))
  }

  predicate ValidTrack(t: Option<Track>, kind: Kind) {
    t.Some? && t.value.ref.Some? ==> t.value.ref.value.kind == kind
  }

  /** The reload check. */
  predicate Valid(d: Draft) {
    && d.revision >= 1
    && GoodNames(d.household, d.agent)
    && (AtLeast(d.step, Model) ==> d.household.Some? && d.agent.Some?)
    && (AtLeast(d.step, Bridge) ==> d.model.Some?)
    && (d.model.Some? ==> Evident(d.model.value))
    && ValidPending(d.models, {ModelKey}, 1, ModelRefs(d))
    && (d.models.staging != [] ==> d.step == Model && d.model.None?)
    && (AtLeast(d.step, Voice) ==> d.bridge.Some?)
    && (d.bridge.Some? ==> d.bridge.value.ref.kind == BridgeKey)
    && ValidPending(d.bridges, {BridgeKey}, 1, BridgeRefs(d))
    && (d.bridges.staging != [] ==> d.step == Bridge && d.bridge.None?)
    && ValidTrack(d.asr, AsrKey) && ValidTrack(d.tts, TtsKey)
    && (d.latencies.Some? ==> d.latencies.value == Latencies(d.asr.Some?, d.tts.Some?))
    && ValidPending(d.voices, {AsrKey, TtsKey}, MAX_CLEANUPS, VoiceRefs(d))
    && |d.voices.cleanup| + |d.voices.staging| <= MAX_CLEANUPS
    && (d.skipped ==> !HasVoice(d))
    && (d.voices.staging != [] ==> d.step == Voice)
    && (d.step == Voice ==> !d.skipped)
    && (d.step == Map ==> d.skipped || CompleteVoice(d))
    && (d.step == Identity || d.step == Model || d.step == Bridge ==> !d.skipped && !HasVoice(d) && d.latencies.None?)
  }

  // -------------------------------------------------------------------------
  // Operations
  // -------------------------------------------------------------------------

  /** A voice stage: its track, its locator if it has one and the rest of it. */
  datatype VoiceStage = VoiceStage(tts: bool, ref: Option<Ref>, details: string)

  function VoiceKind(v: VoiceStage): Kind {
    if v.tts then TtsKey else AsrKey
  }

  datatype Op =
    | SaveIdentity(household: string, agent: string)
    | ReserveModel(lease: Lease)
    | RecordModel(lease: Lease)
    | AckModel(lease: Lease, staged: bool)
    | RetireModel(lease: Lease)
    | RecoverModels
    | ReserveBridge(lease: Lease)
    | RecordBridge(lease: Lease)
    | AckBridge(lease: Lease, staged: bool)
    | RetireBridge(lease: Lease)
    | RecoverBridges
    | ReserveVoice(stage: VoiceStage)
    | RecordVoice(stage: VoiceStage)
    | SkipVoice
    | AckVoice(lease: Lease, staged: bool)
    | RecoverVoices

  /** The operations that a request makes carry a session and an expected revision; the
      others are the store's own maintenance. */
  predicate NeedsSession(op: Op) {
    op.SaveIdentity? || op.ReserveModel? || op.RecordModel? || op.ReserveBridge? || op.RecordBridge?
    || op.ReserveVoice? || op.RecordVoice? || op.SkipVoice?
  }

  /** `l` is compared as it was given; the queue holds it as the next load returns it. */
  function ReservePending(p: Pending, l: Lease, room: bool, maxStaging: nat): Result<Pending> {
    if Holds(p.cleanup, l) then Err(LeaseInvalid)
    else if !room then Err(BacklogFull)
    else if Holds(p.staging, l) then Err(LeaseInvalid)
    else if |p.staging| >= maxStaging then Err(BacklogFull)
    else Ok(p.(staging := p.staging + [Loaded(l)]))
  }

  function AckPending(p: Pending, l: Lease, staged: bool): Pending {
    if staged then p.(staging := Without(p.staging, l)) else p.(cleanup := Without(p.cleanup, l))
  }

  function RetirePending(p: Pending, l: Lease, active: Option<Ref>): Result<Pending> {
    if !Holds(p.staging, l) then Ok(p)
    else
      var c := AppendCleanup(p.cleanup, [l], active);
      if c.Err? then Err(c.error) else Ok(Pending(c.value, Without(p.staging, l)))
  }

  function RecoverPending(p: Pending, active: Option<Ref>): Result<Pending> {
    var c := AppendCleanup(p.cleanup, p.staging, active);
    if c.Err? then Err(c.error) else Ok(Pending(c.value, []))
  }

  function ModelRef(d: Draft): Option<Ref> {
    if d.model.Some? then Some(d.model.value.ref) else None
  }

  function BridgeRef(d: Draft): Option<Ref> {
    if d.bridge.Some? then Some(d.bridge.value.ref) else None
  }

  function TrackLease(t: Option<Track>): seq<Lease> {
    if t.Some? && t.value.ref.Some? then [Lease(t.value.ref.value, Words(t.value.details), "")] else []
  }

  function StageLease(v: VoiceStage): Lease
    requires v.ref.Some?
  {
    Lease(v.ref.value, Words(v.details), "")
  }

  /** The record of a probed track: it replaces the track, ends its lease and queues the
      locator it replaces; the second track completes the voice step. */
  function DoRecordVoice(d: Draft, v: VoiceStage): Result<Draft> {
    if d.step != Voice then Err(StageConflict)
    else if v.ref.Some? && v.ref.value.kind != VoiceKind(v) then Err(BadInput)
    else if v.ref.Some? && !Holds(d.voices.staging, StageLease(v)) then Err(LeaseMissing)
    else
      var c := AppendCleanup(d.voices.cleanup, TrackLease(if v.tts then d.tts else d.asr), v.ref);
      if c.Err? then Err(c.error)
      else
        var track := Some(Track(v.ref, v.details));
        var before := if d.latencies.Some? then d.latencies.value else Latencies(false, false);
        var e := if v.tts then d.(tts := track, latencies := Some(before.(tts := true)))
                 else d.(asr := track, latencies := Some(before.(asr := true)));
        Ok(e.(revision := d.revision + 1, step := if CompleteVoice(e) then Map else Voice,
              voices := Pending(c.value,
                                if v.ref.Some? then Without(d.voices.staging, StageLease(v)) else d.voices.staging)))
  }

  function DoSkipVoice(d: Draft): Result<Draft> {
    if d.step != Voice then Err(StageConflict)
    else if d.voices.staging != [] then Err(LeaseInvalid)
    else
      var c := AppendCleanup(d.voices.cleanup, TrackLease(d.asr) + TrackLease(d.tts), None);
      if c.Err? then Err(c.error)
      else Ok(d.(revision := d.revision + 1, step := Map, asr := None, tts := None, latencies := None, skipped := true,
                 voices := d.voices.(cleanup := c.value)))
  }

  function WithModels(d: Draft, r: Result<Pending>): Result<Draft> {
    if r.Ok? then Ok(d.(models := r.value)) else Err(r.error)
  }

  function WithBridges(d: Draft, r: Result<Pending>): Result<Draft> {
    if r.Ok? then Ok(d.(bridges := r.value)) else Err(r.error)
  }

  function WithVoices(d: Draft, r: Result<Pending>): Result<Draft> {
    if r.Ok? then Ok(d.(voices := r.value)) else Err(r.error)
  }

  /** What an operation makes of a draft whose session and revision it has checked. */
  function Perform(d: Draft, op: Op): Result<Draft> {
    match op
    case SaveIdentity(h, a) =>
      if !GoodName(h) || !GoodName(a) then Err(BadInput)
      else Ok(d.(revision := d.revision + 1, step := Model, household := Some(Trim(h)), agent := Some(Trim(a))))
    case ReserveModel(l) =>
      if d.step != Model then Err(StageConflict)
      else if !Admitted(l) then Err(BadInput)
      else if d.model.Some? then Err(LeaseInvalid)
      else WithModels(d, ReservePending(d.models, l, |d.models.cleanup| < MAX_CLEANUPS, 1))
    case RecordModel(l) =>
      if d.step != Model then Err(StageConflict)
      else if !Admitted(l) then Err(BadInput)
      else if !Holds(d.models.staging, l) then Err(LeaseMissing)
      else Ok(d.(revision := d.revision + 1, step := Bridge, model := Some(Loaded(l)),
                 models := d.models.(staging := Without(d.models.staging, l))))
    case AckModel(l, staged) => Ok(d.(models := AckPending(d.models, l, staged)))
    case RetireModel(l) => WithModels(d, RetirePending(d.models, l, ModelRef(d)))
    case RecoverModels => WithModels(d, RecoverPending(d.models, ModelRef(d)))
    case ReserveBridge(l) =>
      if d.step != Bridge then Err(StageConflict)
      else if l.ref.kind != BridgeKey then Err(BadInput)
      else if d.bridge.Some? then Err(LeaseInvalid)
      else WithBridges(d, ReservePending(d.bridges, l, |d.bridges.cleanup| < MAX_CLEANUPS, 1))
    case RecordBridge(l) =>
      if d.step != Bridge then Err(StageConflict)
      else if l.ref.kind != BridgeKey then Err(BadInput)
      else if !Holds(d.bridges.staging, l) then Err(LeaseMissing)
      else Ok(d.(revision := d.revision + 1, step := Voice, bridge := Some(l),
                 bridges := d.bridges.(staging := Without(d.bridges.staging, l))))
    case AckBridge(l, staged) => Ok(d.(bridges := AckPending(d.bridges, l, staged)))
    case RetireBridge(l) => WithBridges(d, RetirePending(d.bridges, l, BridgeRef(d)))
    case RecoverBridges => WithBridges(d, RecoverPending(d.bridges, BridgeRef(d)))
    case ReserveVoice(v) =>
      if d.step != Voice then Err(StageConflict)
      else if v.ref.None? || v.ref.value.kind != VoiceKind(v) then Err(BadInput)
      else if v.ref.value in VoiceRefs(d) || v.ref.value in Refs(d.voices.cleanup) then Err(LeaseInvalid)
      else WithVoices(d,
                      ReservePending(d.voices, StageLease(v), |d.voices.cleanup| + |d.voices.staging| < MAX_CLEANUPS,
                                     MAX_CLEANUPS))
    case RecordVoice(v) => DoRecordVoice(d, v)
    case SkipVoice => DoSkipVoice(d)
    case AckVoice(l, staged) => Ok(d.(voices := AckPending(d.voices, l, staged)))
    case RecoverVoices => WithVoices(d, RecoverPending(d.voices, None))
  }

  // -------------------------------------------------------------------------
  // When a write is accepted by the next reload
  // -------------------------------------------------------------------------

  ghost predicate Apart(p: Pending) {
    Refs(p.cleanup) !! Refs(p.staging)
  }

  ghost predicate Roomy(p: Pending) {
    |p.cleanup| + |p.staging| <= MAX_CLEANUPS
  }

  /** What every safe run keeps: the draft reloads, no locator is in two queues, there is
      room in each backlog for what is staged, and voice evidence has its latencies. */
  ghost predicate Sound(d: Draft) {
    && Valid(d)
    && Apart(d.models) && Apart(d.bridges) && Apart(d.voices)
    && Roomy(d.models) && Roomy(d.bridges)
    && (HasVoice(d) ==> d.latencies.Some?)
  }

  /** Every locator the draft owns: queued, handed out or evidence. */
  function Owned(d: Draft): set<Ref> {
    Queued(d.models) + ModelRefs(d) + Queued(d.bridges) + BridgeRefs(d) + Queued(d.voices) + VoiceRefs(d)
  }

  function Queued(p: Pending): set<Ref> {
    Refs(p.cleanup) + Refs(p.staging)
  }

  function NewRefs(op: Op): set<Ref> {
    match op
    case ReserveModel(l) => {l.ref}
    case ReserveBridge(l) => {l.ref}
    case ReserveVoice(v) => if v.ref.Some? then {v.ref.value} else {}
    case _ => {}
  }

  /** Reserved locators carry a nonce nobody has used. */
  predicate Fresh(d: Draft, op: Op) {
    NewRefs(op) !! Owned(d)
  }

  function OtherTrack(d: Draft, v: VoiceStage): Option<Track> {
    if v.tts then d.asr else d.tts
  }

  function OwnTrack(d: Draft, v: VoiceStage): Option<Track> {
    if v.tts then d.tts else d.asr
  }

  /** The guard an operation would need for its result to reload. Only three operations need
      one: identity must not be saved over later evidence or leases; the provider and the
      nonce of a model stage must be words and its model id free of white space; the track
      that completes the voice step must find no other lease, and a track without a
      locator must find room for the one it replaces. */
  ghost predicate Safe(d: Draft, op: Op) {
    match op
    case SaveIdentity(_, _) => d.bridges.staging == [] && d.voices.staging == [] && !d.skipped && !HasVoice(d)
    && d.latencies.None?
    case RecordModel(l) => Strict(Loaded(l))
    case RecordVoice(v) =>
      && (OtherTrack(d, v).Some? ==> forall l :: l in d.voices.staging ==> v.ref.Some? && Same(l, StageLease(v)))
      && (v.ref.None? && TrackLease(OwnTrack(d, v)) != [] ==> |d.voices.cleanup| + |d.voices.staging| < MAX_CLEANUPS)
    case _ => true
  }

  lemma OneMore(ls: seq<Lease>, l: Lease)
    ensures Refs(ls + [l]) == Refs(ls) + {l.ref}
    ensures forall x :: x in ls + [l] <==> x in ls || x == l
    ensures Distinct(ls + [l]) <==> Distinct(ls) && l.ref !in Refs(ls)
  {
    var q := ls + [l];
    assert forall x :: x in q <==> x in ls || x == l;
    assert q[|ls|] == l && forall j :: 0 <= j < |ls| ==> q[j] == ls[j] && q[j] in ls;
    if l.ref in Refs(ls) {
      var x :| x in ls && x.ref == l.ref;
      var j :| 0 <= j < |ls| && ls[j] == x;
      assert q[j].ref == q[|ls|].ref;
    }
    if Distinct(q) {
      assert forall i, j :: 0 <= i < j < |ls| ==> q[i].ref != q[j].ref;
    }
  }

  lemma ReservedPending(p: Pending, l: Lease, room: bool, kinds: set<Kind>, max: nat, active: set<Ref>)
    requires ValidPending(p, kinds, max, active) && Fits(l, kinds) && l.ref !in active && l.ref !in Refs(p.cleanup)
    ensures var r := ReservePending(p, l, room, max);
            r.Ok? ==> && (ValidPending(r.value, kinds, max, active) <==> l.ref !in Refs(p.staging))
                      && r.value.cleanup == p.cleanup && |r.value.staging| == |p.staging| + 1
                      && Loaded(l) in r.value.staging
                      && Refs(r.value.staging) == Refs(p.staging) + {l.ref}
  {
    LoadedStays(l);
    LoadedFits(l, kinds);
    hide Fits, Loaded;
    var r := ReservePending(p, l, room, max);
    if r.Ok? {
      var q := r.value.staging;
      OneMore(p.staging, Loaded(l));
      hide Refs, Distinct;
      MemberRefs(p.cleanup);
      forall x | x in p.cleanup
        ensures !Holds(q, x)
      {
        assert !Holds(p.staging, x);
      }
    }
  }

  lemma AckedPending(p: Pending, l: Lease, staged: bool, kinds: set<Kind>, max: nat, active: set<Ref>)
    requires ValidPending(p, kinds, max, active)
    ensures var q := AckPending(p, l, staged);
            && ValidPending(q, kinds, max, active)
            && |q.cleanup| <= |p.cleanup| && |q.staging| <= |p.staging|
  {
    WithoutDistinct(if staged then p.staging else p.cleanup, l);
  }

  /** Queueing some leases while others stay handed out. */
  lemma MovedPending(cleanup: seq<Lease>, moved: seq<Lease>, kept: seq<Lease>, kinds: set<Kind>, max: nat,
                     skip: Option<Ref>, active: set<Ref>)
    requires ValidQueue(cleanup, kinds, MAX_CLEANUPS) && ValidQueue(kept, kinds, max)
             && (forall l :: l in moved ==> Fits(l, kinds))
    requires forall l :: l in cleanup + kept ==> l.ref !in active
    requires forall l :: l in moved ==> l.ref !in active || skip == Some(l.ref)
    requires forall l :: l in kept ==> forall x :: x in cleanup || x in moved ==> x.ref != l.ref
    ensures var r := AppendCleanup(cleanup, moved, skip);
            r.Ok? ==> && ValidPending(Pending(r.value, kept), kinds, max, active) && Apart(Pending(r.value, kept))
                      && Refs(r.value) == Refs(cleanup) + (Refs(moved) - (if skip.Some? then {skip.value} else {}))
                      && |r.value| <= |cleanup| + |moved|
    ensures |cleanup| + |moved| <= MAX_CLEANUPS ==> AppendCleanup(cleanup, moved, skip).Ok?
  {
    AppendCleanupEffect(cleanup, moved, skip);
    var r := AppendCleanup(cleanup, moved, skip);
    if r.Ok? {
      forall x | x in r.value
        ensures !Holds(kept, x) && Fits(x, kinds) && x.ref !in active
      {
        assert x.ref in Refs(r.value);
      }
    }
  }

  lemma IdentityExact(d: Draft, op: Op, e: Draft)
    requires Sound(d) && op.SaveIdentity? && Perform(d, op) == Ok(e)
    ensures Valid(e) <==> Safe(d, op)
    ensures Safe(d, op) ==> Sound(e)
  {
    hide GoodNames, ValidPending, Apart, Roomy, GoodName;
    TrimmedNames(op.household, op.agent);
  }

  lemma TrimmedNames(household: string, agent: string)
    requires GoodName(household) && GoodName(agent)
    ensures GoodNames(Some(Trim(household)), Some(Trim(agent)))
  {
    TrimTwice(household);
    TrimTwice(agent);
  }

  /** A draft whose one pair of queues changed within its own rules is still sound. */
  lemma ModelsChange(d: Draft, p: Pending)
    requires Sound(d) && ValidPending(p, {ModelKey}, 1, ModelRefs(d)) && Apart(p) && Roomy(p)
    requires p.staging != [] ==> d.step == Model && d.model.None?
    ensures Sound(d.(models := p))
  {
    hide GoodNames, ValidPending, Apart, Roomy;
  }

  lemma BridgesChange(d: Draft, p: Pending)
    requires Sound(d) && ValidPending(p, {BridgeKey}, 1, BridgeRefs(d)) && Apart(p) && Roomy(p)
    requires p.staging != [] ==> d.step == Bridge && d.bridge.None?
    ensures Sound(d.(bridges := p))
  {
    hide GoodNames, ValidPending, Apart, Roomy;
  }

  lemma VoicesChange(d: Draft, p: Pending)
    requires Sound(d) && ValidPending(p, {AsrKey, TtsKey}, MAX_CLEANUPS, VoiceRefs(d)) && Apart(p) && Roomy(p)
    requires p.staging != [] ==> d.step == Voice
    ensures Sound(d.(voices := p))
  {
    hide GoodNames, ValidPending, Apart;
  }

  lemma SoundParts(d: Draft)
    requires Sound(d)
    ensures ValidPending(d.models, {ModelKey}, 1, ModelRefs(d)) && Apart(d.models) && Roomy(d.models)
    ensures ValidPending(d.bridges, {BridgeKey}, 1, BridgeRefs(d)) && Apart(d.bridges) && Roomy(d.bridges)
    ensures ValidPending(d.voices, {AsrKey, TtsKey}, MAX_CLEANUPS, VoiceRefs(d)) && Apart(d.voices) && Roomy(d.voices)
    ensures d.models.staging != [] ==> d.step == Model && d.model.None?
    ensures d.bridges.staging != [] ==> d.step == Bridge && d.bridge.None?
    ensures d.voices.staging != [] ==> d.step == Voice
  {}

  lemma ReservedFits(p: Pending, l: Lease, room: bool, max: nat, kinds: set<Kind>, active: set<Ref>)
    requires ValidPending(p, kinds, max, active) && Apart(p) && Fits(l, kinds) && l.ref !in active
    requires l.ref !in Refs(p.cleanup) && l.ref !in Refs(p.staging)
             && (room ==> |p.cleanup| + |p.staging| < MAX_CLEANUPS || max == 1)
    requires room ==> |p.cleanup| < MAX_CLEANUPS
    ensures var r := ReservePending(p, l, room, max);
            r.Ok? ==> ValidPending(r.value, kinds, max, active) && Apart(r.value) && Roomy(r.value)
  {
    ReservedPending(p, l, room, kinds, max, active);
    hide GoodNames, ValidPending, Refs, Holds;
  }

  lemma OwnedParts(d: Draft)
    ensures Refs(d.models.cleanup) + Refs(d.models.staging) + ModelRefs(d) <= Owned(d)
    ensures Refs(d.bridges.cleanup) + Refs(d.bridges.staging) + BridgeRefs(d) <= Owned(d)
    ensures Refs(d.voices.cleanup) + Refs(d.voices.staging) + VoiceRefs(d) <= Owned(d)
  {}

  lemma ReserveExact(d: Draft, op: Op, e: Draft)
    requires Sound(d) && (op.ReserveModel? || op.ReserveBridge? || op.ReserveVoice?) && Fresh(d, op)
             && Perform(d, op) == Ok(e)
    ensures Sound(e)
  {
    hide Sound, Valid, ValidPending, ReservePending, Refs, Owned, Roomy, Apart, GoodName, Loaded;
    SoundParts(d);
    OwnedParts(d);
    match op
    case ReserveModel(l) =>
      assert l.ref in NewRefs(op);
      ReservedFits(d.models, l, |d.models.cleanup| < MAX_CLEANUPS, 1, {ModelKey}, ModelRefs(d));
      ModelsChange(d, e.models);
    case ReserveBridge(l) =>
      assert l.ref in NewRefs(op);
      ReservedFits(d.bridges, l, |d.bridges.cleanup| < MAX_CLEANUPS, 1, {BridgeKey}, BridgeRefs(d));
      BridgesChange(d, e.bridges);
    case ReserveVoice(v) =>
      assert v.ref.value in NewRefs(op);
      ReservedFits(d.voices, StageLease(v), |d.voices.cleanup| + |d.voices.staging| < MAX_CLEANUPS, MAX_CLEANUPS,
                   {AsrKey, TtsKey}, VoiceRefs(d));
      VoicesChange(d, e.voices);
  }

  /** Recording a probe empties a queue of one. */
  lemma TakenFrom(p: Pending, l: Lease, kinds: set<Kind>, max: nat, active: set<Ref>)
    requires ValidPending(p, kinds, max, active) && Holds(p.staging, l) && Apart(p) && active == {}
    ensures var q := p.(staging := Without(p.staging, l));
            && ValidPending(q, kinds, max, {l.ref}) && Apart(q) && |q.staging| < |p.staging|
            && (max == 1 ==> q.staging == [])
  {
    WithoutDistinct(p.staging, l);
    SplitStaging(p.staging, l);
    MemberRefs(Without(p.staging, l));
    MemberRefs(p.cleanup);
  }

  lemma HeldIsSome(ls: seq<Lease>, l: Lease)
    requires Holds(ls, l)
    ensures ls != []
  {}

  lemma RecordExact(d: Draft, op: Op, e: Draft)
    requires Sound(d) && (op.RecordModel? || op.RecordBridge?) && Perform(d, op) == Ok(e)
    ensures Valid(e) <==> Safe(d, op)
    ensures Safe(d, op) ==> Sound(e)
  {
    hide GoodNames, ValidPending, Refs, Apart, Admitted, Strict, Loaded, Without;
    if op.RecordModel? {
      LoadedStays(op.lease);
      HeldIsSome(d.models.staging, op.lease);
    } else {
      HeldIsSome(d.bridges.staging, op.lease);
    }
    hide Holds;
    if op.RecordModel? {
      TakenFrom(d.models, op.lease, {ModelKey}, 1, {});
    } else {
      TakenFrom(d.bridges, op.lease, {BridgeKey}, 1, {});
    }
  }

  lemma AckedFits(p: Pending, l: Lease, staged: bool, kinds: set<Kind>, max: nat, active: set<Ref>)
    requires ValidPending(p, kinds, max, active) && Apart(p) && Roomy(p)
    ensures var q := AckPending(p, l, staged);
            ValidPending(q, kinds, max, active) && Apart(q) && Roomy(q) && (q.staging != [] ==> p.staging != [])
  {
    AckedPending(p, l, staged, kinds, max, active);
    hide GoodNames, ValidPending;
  }

  lemma AckExact(d: Draft, op: Op, e: Draft)
    requires Sound(d) && (op.AckModel? || op.AckBridge? || op.AckVoice?) && Perform(d, op) == Ok(e)
    ensures Sound(e)
  {
    SoundParts(d);
    hide Sound, Valid, ValidPending, Roomy, Apart, AckPending;
    match op
    case AckModel(l, staged) =>
      AckedFits(d.models, l, staged, {ModelKey}, 1, ModelRefs(d));
      ModelsChange(d, e.models);
    case AckBridge(l, staged) =>
      AckedFits(d.bridges, l, staged, {BridgeKey}, 1, BridgeRefs(d));
      BridgesChange(d, e.bridges);
    case AckVoice(l, staged) =>
      AckedFits(d.voices, l, staged, {AsrKey, TtsKey}, MAX_CLEANUPS, VoiceRefs(d));
      VoicesChange(d, e.voices);
  }

  // Moving a lease to the cleanup queue

  lemma SplitStaging(ls: seq<Lease>, l: Lease)
    requires Distinct(ls) && Holds(ls, l)
    ensures Refs(ls) == Refs(Without(ls, l)) + {l.ref} && l.ref !in Refs(Without(ls, l))
  {
    var x :| x in ls && Same(x, l);
    forall y | y in Without(ls, l)
      ensures y.ref != l.ref
    {
      var i :| 0 <= i < |ls| && ls[i] == x;
      var j :| 0 <= j < |ls| && ls[j] == y;
      assert y.ref == x.ref ==> i == j;
    }
  }

  lemma OneRef(l: Lease)
    ensures Refs([l]) == {l.ref}
  {}

  lemma MemberRefs(ls: seq<Lease>)
    ensures forall l :: l in ls ==> l.ref in Refs(ls)
  {}

  lemma InStaging(ls: seq<Lease>, l: Lease)
    requires Holds(ls, l)
    ensures exists x :: x in ls && x.ref == l.ref
  {}

  lemma QueueRefs(p: Pending, kinds: set<Kind>, max: nat, active: set<Ref>)
    requires ValidPending(p, kinds, max, active)
    ensures ValidQueue(p.cleanup, kinds, MAX_CLEANUPS) && ValidQueue(p.staging, kinds, max)
    ensures forall l :: l in p.cleanup || l in p.staging ==> l.ref !in active && l.ref.kind in kinds && Fits(l, kinds)
    ensures Refs(p.cleanup) !! active && Refs(p.staging) !! active
  {
    assert forall l :: l in p.cleanup || l in p.staging ==> l in p.cleanup + p.staging;
  }

  /** A lease can always be retired, and keeps its locator owned. */
  lemma RetiredFits(p: Pending, l: Lease, kinds: set<Kind>, max: nat, skip: Option<Ref>, active: set<Ref>)
    requires ValidPending(p, kinds, max, active) && Apart(p) && Roomy(p) && (skip.Some? ==> skip.value in active)
    ensures var r := RetirePending(p, l, skip);
            && r.Ok?
            && ValidPending(r.value, kinds, max, active) && Apart(r.value) && Roomy(r.value)
            && (r.value.staging != [] ==> p.staging != [])
            && Refs(r.value.cleanup) + Refs(r.value.staging) == Refs(p.cleanup) + Refs(p.staging)
  {
    if Holds(p.staging, l) {
      var kept := Without(p.staging, l);
      WithoutDistinct(p.staging, l);
      SplitStaging(p.staging, l);
      InStaging(p.staging, l);
      QueueRefs(p, kinds, max, active);
      MemberRefs(kept);
      MemberRefs(p.cleanup);
      hide Refs, Holds, Without, AppendCleanup, ValidPending;
      assert l.ref in Refs(p.staging);
      MovedPending(p.cleanup, [l], kept, kinds, max, skip, active);
      OneRef(l);
    }
  }

  lemma RecoveredFits(p: Pending, kinds: set<Kind>, max: nat, skip: Option<Ref>, active: set<Ref>)
    requires ValidPending(p, kinds, max, active) && Roomy(p) && (skip.Some? ==> skip.value in active)
    ensures var r := RecoverPending(p, skip);
            && r.Ok?
            && ValidPending(r.value, kinds, max, active) && Apart(r.value) && Roomy(r.value)
            && r.value.staging == [] && Refs(r.value.cleanup) == Refs(p.cleanup) + Refs(p.staging)
  {
    MovedPending(p.cleanup, p.staging, [], kinds, max, skip, active);
  }

  /** Retiring and cold-start recovery never fail on a sound draft. */
  lemma RetireExact(d: Draft, op: Op)
    requires Sound(d)
             && (op.RetireModel? || op.RetireBridge? || op.RecoverModels? || op.RecoverBridges? || op.RecoverVoices?)
    ensures Perform(d, op).Ok? && Sound(Perform(d, op).value)
  {
    SoundParts(d);
    hide Sound, Valid, ValidPending, Roomy, Apart, RetirePending, RecoverPending;
    match op
    case RetireModel(l) =>
      RetiredFits(d.models, l, {ModelKey}, 1, ModelRef(d), ModelRefs(d));
      ModelsChange(d, RetirePending(d.models, l, ModelRef(d)).value);
    case RetireBridge(l) =>
      RetiredFits(d.bridges, l, {BridgeKey}, 1, BridgeRef(d), BridgeRefs(d));
      BridgesChange(d, RetirePending(d.bridges, l, BridgeRef(d)).value);
    case RecoverModels =>
      RecoveredFits(d.models, {ModelKey}, 1, ModelRef(d), ModelRefs(d));
      ModelsChange(d, RecoverPending(d.models, ModelRef(d)).value);
    case RecoverBridges =>
      RecoveredFits(d.bridges, {BridgeKey}, 1, BridgeRef(d), BridgeRefs(d));
      BridgesChange(d, RecoverPending(d.bridges, BridgeRef(d)).value);
    case RecoverVoices =>
      RecoveredFits(d.voices, {AsrKey, TtsKey}, MAX_CLEANUPS, None, VoiceRefs(d));
      VoicesChange(d, RecoverPending(d.voices, None).value);
  }

  // Voice

  lemma TrackLeaseRefs(t: Option<Track>, kind: Kind)
    requires ValidTrack(t, kind)
    ensures Refs(TrackLease(t)) == TrackRefs(t) && |TrackLease(t)| <= 1 && forall l :: l in TrackLease(t) ==>
            l.ref.kind == kind
  {}

  lemma PendingQueues(p: Pending, kinds: set<Kind>, max: nat, active: set<Ref>)
    requires ValidPending(p, kinds, max, active)
    ensures ValidQueue(p.cleanup, kinds, MAX_CLEANUPS) && ValidQueue(p.staging, kinds, max)
  {}

  lemma SkipExact(d: Draft, e: Draft)
    requires Sound(d) && Perform(d, SkipVoice) == Ok(e)
    ensures Sound(e)
  {
    hide GoodNames, ValidPending, AppendCleanup, Refs, Holds, Apart, TrackLease, Evident;
    SoundParts(d);
    PendingQueues(d.voices, {AsrKey, TtsKey}, MAX_CLEANUPS, VoiceRefs(d));
    var moved := TrackLease(d.asr) + TrackLease(d.tts);
    assert forall l :: l in moved <==> l in TrackLease(d.asr) || l in TrackLease(d.tts);
    TrackLeaseRefs(d.asr, AsrKey);
    TrackLeaseRefs(d.tts, TtsKey);
    MovedPending(d.voices.cleanup, moved, [], {AsrKey, TtsKey}, MAX_CLEANUPS, None, {});
    assert VoiceRefs(e) == {};
    assert e.voices == Pending(e.voices.cleanup, []);
    PendingQueues(e.voices, {AsrKey, TtsKey}, MAX_CLEANUPS, {});
  }

  function KeptVoices(d: Draft, v: VoiceStage): seq<Lease> {
    if v.ref.Some? then Without(d.voices.staging, StageLease(v)) else d.voices.staging
  }

  lemma KeptFacts(d: Draft, v: VoiceStage)
    requires Sound(d) && (v.ref.Some? ==> Holds(d.voices.staging, StageLease(v)))
    ensures var kept := KeptVoices(d, v);
            && Distinct(kept) && |kept| <= |d.voices.staging|
            && (forall l :: l in kept ==> l in d.voices.staging && v.ref != Some(l.ref))
            && (kept == [] <==> forall l :: l in d.voices.staging ==> v.ref.Some? && Same(l, StageLease(v)))
            && (v.ref.Some? ==> |kept| < |d.voices.staging| && v.ref.value in Refs(d.voices.staging))
            && Refs(kept) + (if v.ref.Some? then {v.ref.value} else {}) == Refs(d.voices.staging)
  {
    var kept := KeptVoices(d, v);
    if v.ref.Some? {
      WithoutDistinct(d.voices.staging, StageLease(v));
      SplitStaging(d.voices.staging, StageLease(v));
      assert forall l :: l in kept ==> l.ref in Refs(kept);
    }
    if kept == [] {
      forall l | l in d.voices.staging
        ensures v.ref.Some? && Same(l, StageLease(v))
      {
        assert l !in kept;
      }
    } else {
      assert kept[0] in kept;
    }
  }

  lemma RecordedShape(d: Draft, v: VoiceStage, e: Draft)
    requires Perform(d, RecordVoice(v)) == Ok(e)
    ensures AppendCleanup(d.voices.cleanup, TrackLease(OwnTrack(d, v)), v.ref) == Ok(e.voices.cleanup)
    ensures e.voices.staging == KeptVoices(d, v)
            && (v.ref.Some? ==> Holds(d.voices.staging, StageLease(v)) && v.ref.value.kind == VoiceKind(v))
    ensures VoiceRefs(e) == TrackRefs(OtherTrack(d, v)) + (if v.ref.Some? then {v.ref.value} else {})
    ensures VoiceRefs(d) == TrackRefs(OtherTrack(d, v)) + TrackRefs(OwnTrack(d, v))
  {
    hide AppendCleanup, Holds, Without;
  }

  lemma VoiceQueueFacts(d: Draft, v: VoiceStage)
    requires Sound(d)
    ensures ValidQueue(d.voices.cleanup, {AsrKey, TtsKey}, MAX_CLEANUPS)
            && ValidQueue(d.voices.staging, {AsrKey, TtsKey}, MAX_CLEANUPS)
    ensures forall l :: l in d.voices.cleanup || l in d.voices.staging ==> l.ref !in VoiceRefs(d)
    ensures forall x, l :: x in d.voices.cleanup && l in d.voices.staging ==> x.ref != l.ref
    ensures ValidTrack(OwnTrack(d, v), VoiceKind(v)) && ValidTrack(OtherTrack(d, v), if v.tts then AsrKey else TtsKey)
  {
    assert forall l :: l in d.voices.cleanup ==> l.ref in Refs(d.voices.cleanup);
    assert forall l :: l in d.voices.staging ==> l.ref in Refs(d.voices.staging);
    assert forall l :: l in d.voices.cleanup || l in d.voices.staging ==> l in d.voices.cleanup + d.voices.staging;
  }

  /** The queues after a recorded track. */
  lemma RecordedVoices(d: Draft, v: VoiceStage, e: Draft)
    requires Sound(d) && Perform(d, RecordVoice(v)) == Ok(e)
    ensures e.voices.staging == KeptVoices(d, v)
    ensures ValidPending(e.voices, {AsrKey, TtsKey}, MAX_CLEANUPS, VoiceRefs(e)) && Apart(e.voices)
    ensures Refs(e.voices.cleanup) == Refs(d.voices.cleanup) + (TrackRefs(OwnTrack(d, v)) - (if v.ref.Some?
                                                                                             then {v.ref.value}
                                                                                                  else {}))
  {
    hide Sound, Valid, Perform, ValidPending, Apart, KeptVoices, Holds, AppendCleanup, VoiceRefs, Refs;
    RecordedShape(d, v, e);
    KeptFacts(d, v);
    VoiceQueueFacts(d, v);
    var own := OwnTrack(d, v);
    TrackLeaseRefs(own, VoiceKind(v));
    if v.ref.Some? {
      InStaging(d.voices.staging, StageLease(v));
    }
    LeaseOfTrack(own);
    MovedPending(d.voices.cleanup, TrackLease(own), KeptVoices(d, v), {AsrKey, TtsKey}, MAX_CLEANUPS, v.ref,
                 VoiceRefs(e));
    assert e.voices == Pending(e.voices.cleanup, KeptVoices(d, v));
  }

  lemma LeaseOfTrack(t: Option<Track>)
    ensures forall l :: l in TrackLease(t) ==> l.ref in TrackRefs(t)
  {}

  lemma RecordedCount(d: Draft, v: VoiceStage, e: Draft)
    requires Sound(d) && Perform(d, RecordVoice(v)) == Ok(e)
    ensures |e.voices.cleanup| == |d.voices.cleanup| + (if TrackLease(OwnTrack(d, v)) != []
                                                        && OwnTrack(d, v).value.ref != v.ref then 1 else 0)
  {
    RecordedShape(d, v, e);
    VoiceQueueFacts(d, v);
    var own := OwnTrack(d, v);
    if TrackLease(own) != [] {
      assert own.value.ref.value in VoiceRefs(d);
      assert own.value.ref.value !in Refs(d.voices.cleanup);
      assert TrackLease(own)[1..] == [];
    }
    hide Sound, Perform, Holds, KeptVoices;
  }

  lemma RecordVoiceExact(d: Draft, v: VoiceStage, e: Draft)
    requires Sound(d) && Perform(d, RecordVoice(v)) == Ok(e)
    ensures Valid(e) <==> Safe(d, RecordVoice(v))
    ensures Safe(d, RecordVoice(v)) ==> Sound(e)
  {
    hide Evident, ValidPending, Holds, Without, Refs, AppendCleanup, KeptVoices;
    SoundParts(d);
    KeptFacts(d, v);
    RecordedVoices(d, v, e);
    RecordedCount(d, v, e);
    OwnNotActive(d, v);
  }

  lemma OwnNotActive(d: Draft, v: VoiceStage)
    requires Sound(d) && (v.ref.Some? ==> v.ref.value in Refs(d.voices.staging))
    ensures v.ref.Some? ==> v.ref.value !in VoiceRefs(d)
  {}

  /** The exact condition, for every operation on a draft of a sound run: what it writes is
      accepted by the next reload if and only if its guard holds, and then the run is sound
      again. */
  lemma WriteReloadsExactly(d: Draft, op: Op, e: Draft)
    requires Sound(d) && Fresh(d, op) && Perform(d, op) == Ok(e)
    ensures Valid(e) <==> Safe(d, op)
    ensures Safe(d, op) ==> Sound(e)
  {
    hide *;
    SafeByDefault(d, op);
    match op {
      case SaveIdentity(_, _) => IdentityExact(d, op, e);
      case ReserveModel(_) => ReserveExact(d, op, e);
      case ReserveBridge(_) => ReserveExact(d, op, e);
      case ReserveVoice(_) => ReserveExact(d, op, e);
      case RecordModel(_) => RecordExact(d, op, e);
      case RecordBridge(_) => RecordExact(d, op, e);
      case RecordVoice(v) => RecordVoiceExact(d, v, e);
      case SkipVoice => SkipExact(d, e);
      case AckModel(_, _) => AckExact(d, op, e);
      case AckBridge(_, _) => AckExact(d, op, e);
      case AckVoice(_, _) => AckExact(d, op, e);
      case _ => RetireExact(d, op);
    }
    if Sound(e) {
      SoundIsValid(e);
    }
  }

  lemma SafeByDefault(d: Draft, op: Op)
    ensures !op.SaveIdentity? && !op.RecordModel? && !op.RecordVoice? ==> Safe(d, op)
  {}

  lemma SoundIsValid(d: Draft)
    requires Sound(d)
    ensures Valid(d)
  {}
}
