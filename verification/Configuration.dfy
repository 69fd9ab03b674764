/** The durable product configuration and the store that replaces it by compare-and-swap. */
module Configurations {
  import opened Wrappers

  /** The two settings owners that share one configuration generation. */
  datatype Owner = ModelOwner | VoiceOwner

  datatype Track = ModelTrack | AsrTrack | TtsTrack

  datatype LocatorKind = SetupModel | OperationalModel | VoiceAsr | VoiceTts

  /** A vault locator: its namespace, the candidate it was staged for and the random
      nonce. `managed` says that the owner's pattern recognises the whole locator. */
  datatype Locator = Locator(kind: LocatorKind, candidate: nat, nonce: nat, managed: bool) {
    function Track(): Track {
      match kind
      case SetupModel => ModelTrack
      case OperationalModel => ModelTrack
      case VoiceAsr => AsrTrack
      case VoiceTts => TtsTrack
    }

    function Owner(): Owner {
      if Track() == ModelTrack then ModelOwner else VoiceOwner
    }
  }

  datatype ModelConfig = ModelConfig(reference: string, baseUrl: Option<string>, credential: Locator)

  datatype VoiceTrackConfig = VoiceTrackConfig(endpoint: string, credential: Option<Locator>)

  datatype VoiceConfig = VoiceConfig(asr: VoiceTrackConfig, tts: VoiceTrackConfig)

  datatype Draft = Draft(householdName: string, agentName: string, bridges: seq<string>,
                         model: ModelConfig, voice: Option<VoiceConfig>)

  datatype Configuration = Configuration(generation: nat, activatedAt: nat, draft: Draft)

  /** Operational model commits accept only a locator of the operational namespace. */
  predicate ValidModel(m: ModelConfig, operationalOnly: bool) {
    m.credential.kind == OperationalModel || (!operationalOnly && m.credential.kind == SetupModel)
  }

  predicate ValidVoice(v: VoiceConfig) {
    && (v.asr.credential.Some? ==> v.asr.credential.value.kind == VoiceAsr && v.asr.credential.value.managed)
    && (v.tts.credential.Some? ==> v.tts.credential.value.kind == VoiceTts && v.tts.credential.value.managed)
  }

  predicate ValidDraft(d: Draft) {
    ValidModel(d.model, false) && (d.voice.Some? ==> ValidVoice(d.voice.value))
  }

  predicate ValidConfiguration(c: Configuration) {
    c.generation >= 1 && ValidDraft(c.draft)
  }

  function OptionalRef(l: Option<Locator>): set<Locator> {
    if l.Some? then {l.value} else {}
  }

  function VoiceRefs(v: VoiceConfig): set<Locator> {
    OptionalRef(v.asr.credential) + OptionalRef(v.tts.credential)
  }

  /** The locators that one owner's section of a configuration names. */
  function Refs(c: Configuration, o: Owner): set<Locator> {
    match o
    case ModelOwner => {c.draft.model.credential}
    case VoiceOwner => if c.draft.voice.Some? then VoiceRefs(c.draft.voice.value) else {}
  }

  function AllRefs(c: Configuration): set<Locator> {
    Refs(c, ModelOwner) + Refs(c, VoiceOwner)
  }

  /** The owners' locators that the settings code can parse back and therefore adopt. */
  function ManagedRefs(c: Configuration, o: Owner): set<Locator> {
    set l | l in Refs(c, o) && l.managed
  }

  /** In a valid configuration a locator is named by the section of its own track,
      and each track names at most one. */
  lemma RefsFollowTracks(c: Configuration)
    requires ValidConfiguration(c)
    ensures forall o, l :: l in Refs(c, o) ==> l.Owner() == o
    ensures forall l, m :: l in AllRefs(c) && m in AllRefs(c) && l.Track() == m.Track() ==> l == m
  {}

  // -------------------------------------------------------------------------
  // Compare-and-swap
  // -------------------------------------------------------------------------

  datatype CommitResult = Committed(configuration: Configuration) | Conflict | Invalid

  function CommitDraft(current: Option<Configuration>, expected: int, d: Draft, now: nat): CommitResult {
    if expected < 0 || !ValidDraft(d) then Invalid
    else if (if current.Some? then current.value.generation else 0) != expected then Conflict
    else Committed(Configuration(expected + 1, now, d))
  }

  function CommitVoice(current: Option<Configuration>, expected: int, v: Option<VoiceConfig>): CommitResult {
    if expected < 0 || (v.Some? && !ValidVoice(v.value)) then Invalid
    else if current.None? || current.value.generation != expected then Conflict
    else Committed(Configuration(expected + 1, current.value.activatedAt, current.value.draft.(voice := v)))
  }

  function CommitModel(current: Option<Configuration>, expected: int, m: ModelConfig): CommitResult {
    if expected < 0 || !ValidModel(m, true) then Invalid
    else if current.None? || current.value.generation != expected then Conflict
    else Committed(Configuration(expected + 1, current.value.activatedAt, current.value.draft.(model := m)))
  }

  datatype Request =
    | WholeDraft(expected: int, draft: Draft, now: nat)
    | ModelChange(expected: int, model: ModelConfig)
    | VoiceChange(expected: int, voice: Option<VoiceConfig>)

  function Answer(current: Option<Configuration>, r: Request): CommitResult {
    match r
    case WholeDraft(e, d, now) => CommitDraft(current, e, d, now)
    case ModelChange(e, m) => CommitModel(current, e, m)
    case VoiceChange(e, v) => CommitVoice(current, e, v)
  }

  function After(current: Option<Configuration>, r: Request): Option<Configuration> {
    var a := Answer(current, r);
    if a.Committed? then Some(a.configuration) else current
  }

  /** The store after a sequence of requests, whoever sent them. */
  function Serve(current: Option<Configuration>, rs: seq<Request>): Option<Configuration>
    decreases |rs|
  {
    if rs == [] then current else After(Serve(current, rs[..|rs| - 1]), rs[|rs| - 1])
  }

  /** Whether the i-th request of a sequence was answered with a commit. */
  predicate Wins(current: Option<Configuration>, rs: seq<Request>, i: nat)
    requires i < |rs|
  {
    Answer(Serve(current, rs[..i]), rs[i]).Committed?
  }

  function Generation(c: Option<Configuration>): nat {
    if c.Some? then c.value.generation else 0
  }

  /** Generations only move forward, by one for each commit and by nothing otherwise. */
  lemma {:induction false} GenerationCountsCommits(current: Option<Configuration>, rs: seq<Request>, i: nat, j: nat)
    requires i <= j <= |rs|
    ensures Generation(Serve(current, rs[..i])) <= Generation(Serve(current, rs[..j]))
    ensures i < j && Wins(current, rs, i) ==>
              && rs[i].expected == Generation(Serve(current, rs[..i]))
              && Generation(Serve(current, rs[..i + 1])) == rs[i].expected + 1
              && Generation(Serve(current, rs[..j])) > rs[i].expected
    decreases j
  {
    if i < j {
      assert rs[..j][..j - 1] == rs[..j - 1];
      if i < j - 1 {
        GenerationCountsCommits(current, rs, i, j - 1);
      }
      assert rs[..i + 1][..i] == rs[..i];
    }
  }

  /** At most one request per expected generation is answered with a commit. */
  lemma OneCommitPerGeneration(current: Option<Configuration>, rs: seq<Request>, i: nat, j: nat)
    requires i < j < |rs|
    requires Wins(current, rs, i) && Wins(current, rs, j)
    ensures rs[i].expected < rs[j].expected
  {
    GenerationCountsCommits(current, rs, i, j);
    GenerationCountsCommits(current, rs, j, j + 1);
  }

  /** The index of the last committed request that replaces the model, or -1. */
  function LastModelWin(current: Option<Configuration>, rs: seq<Request>): (i: int)
    ensures -1 <= i < |rs|
    ensures i >= 0 ==> !rs[i].VoiceChange? && Wins(current, rs, i)
    ensures forall j :: i < j < |rs| ==> rs[j].VoiceChange? || !Wins(current, rs, j)
    decreases |rs|
  {
    if rs == [] then -1
    else
      var n := |rs| - 1;
      if !rs[n].VoiceChange? && Wins(current, rs, n) then n
      else
        var i := LastModelWin(current, rs[..n]);
        assert forall j | 0 <= j < n :: rs[..n][..j] == rs[..j];
        i
  }

  /** The index of the last committed request that replaces the voice capability, or -1. */
  function LastVoiceWin(current: Option<Configuration>, rs: seq<Request>): (i: int)
    ensures -1 <= i < |rs|
    ensures i >= 0 ==> !rs[i].ModelChange? && Wins(current, rs, i)
    ensures forall j :: i < j < |rs| ==> rs[j].ModelChange? || !Wins(current, rs, j)
    decreases |rs|
  {
    if rs == [] then -1
    else
      var n := |rs| - 1;
      if !rs[n].ModelChange? && Wins(current, rs, n) then n
      else
        var i := LastVoiceWin(current, rs[..n]);
        assert forall j | 0 <= j < n :: rs[..n][..j] == rs[..j];
        i
  }

  /** The index of the last committed request that replaces the whole draft, or -1. */
  function LastDraftWin(current: Option<Configuration>, rs: seq<Request>): (i: int)
    ensures -1 <= i < |rs|
    ensures i >= 0 ==> rs[i].WholeDraft? && Wins(current, rs, i)
    ensures forall j :: i < j < |rs| ==> !rs[j].WholeDraft? || !Wins(current, rs, j)
    decreases |rs|
  {
    if rs == [] then -1
    else
      var n := |rs| - 1;
      if rs[n].WholeDraft? && Wins(current, rs, n) then n
      else
        var i := LastDraftWin(current, rs[..n]);
        assert forall j | 0 <= j < n :: rs[..n][..j] == rs[..j];
        i
  }

  function ModelOf(r: Request): ModelConfig
    requires !r.VoiceChange?
  {
    if r.WholeDraft? then r.draft.model else r.model
  }

  function VoiceOf(r: Request): Option<VoiceConfig>
    requires !r.ModelChange?
  {
    if r.WholeDraft? then r.draft.voice else r.voice
  }

  lemma {:induction false} StoredOnceDrafted(current: Option<Configuration>, rs: seq<Request>)
    ensures Serve(current, rs).Some? <==> current.Some? || LastDraftWin(current, rs) >= 0
    decreases |rs|
  {
    if rs != [] {
      StoredOnceDrafted(current, rs[..|rs| - 1]);
    }
  }

  lemma {:induction false} LastModelStays(current: Option<Configuration>, rs: seq<Request>)
    requires Serve(current, rs).Some?
    ensures var f, m := Serve(current, rs).value, LastModelWin(current, rs);
            if m >= 0 then f.draft.model == ModelOf(rs[m])
            else current.Some? && f.draft.model == current.value.draft.model
    decreases |rs|
  {
    if rs != [] && Serve(current, rs[..|rs| - 1]).Some? {
      LastModelStays(current, rs[..|rs| - 1]);
    }
  }

  lemma {:induction false} LastVoiceStays(current: Option<Configuration>, rs: seq<Request>)
    requires Serve(current, rs).Some?
    ensures var f, v := Serve(current, rs).value, LastVoiceWin(current, rs);
            if v >= 0 then f.draft.voice == VoiceOf(rs[v])
            else current.Some? && f.draft.voice == current.value.draft.voice
    decreases |rs|
  {
    if rs != [] && Serve(current, rs[..|rs| - 1]).Some? {
      LastVoiceStays(current, rs[..|rs| - 1]);
    }
  }

  lemma {:induction false} LastDraftStays(current: Option<Configuration>, rs: seq<Request>)
    requires Serve(current, rs).Some?
    ensures var f, d := Serve(current, rs).value, LastDraftWin(current, rs);
            if d >= 0 then SameHousehold(f.draft, rs[d].draft) && f.activatedAt == rs[d].now
            else current.Some? && SameHousehold(f.draft, current.value.draft)
                 && f.activatedAt == current.value.activatedAt
    decreases |rs|
  {
    if rs != [] && Serve(current, rs[..|rs| - 1]).Some? {
      LastDraftStays(current, rs[..|rs| - 1]);
    }
  }

  /** Interleaved model and voice changes never overwrite each other: the stored model is
      the one of the last committed model change and the stored voice the one of the last
      committed voice change, whatever was interleaved; and everything else is what the last
      committed whole draft said. Nothing is stored before a whole draft was. */
  lemma NoLostUpdate(current: Option<Configuration>, rs: seq<Request>)
    ensures var f := Serve(current, rs);
            var m, v, d := LastModelWin(current, rs), LastVoiceWin(current, rs), LastDraftWin(current, rs);
            && (f.Some? <==> current.Some? || d >= 0)
            && (f.Some? ==>
                  && (if m >= 0 then f.value.draft.model == ModelOf(rs[m])
                      else current.Some? && f.value.draft.model == current.value.draft.model)
                  && (if v >= 0 then f.value.draft.voice == VoiceOf(rs[v])
                      else current.Some? && f.value.draft.voice == current.value.draft.voice)
                  && (if d >= 0 then SameHousehold(f.value.draft, rs[d].draft) && f.value.activatedAt == rs[d].now
                      else current.Some? && SameHousehold(f.value.draft, current.value.draft)
                           && f.value.activatedAt == current.value.activatedAt))
  {
    StoredOnceDrafted(current, rs);
    if Serve(current, rs).Some? {
      LastModelStays(current, rs);
      LastVoiceStays(current, rs);
      LastDraftStays(current, rs);
    }
  }

  /** The sections that only a whole draft replaces. */
  predicate SameHousehold(d: Draft, e: Draft) {
    d.householdName == e.householdName && d.agentName == e.agentName && d.bridges == e.bridges
  }

  predicate Acceptable(r: Request) {
    r.expected >= 0
    && match r
       case WholeDraft(_, d, _) => ValidDraft(d)
       case ModelChange(_, m) => ValidModel(m, true)
       case VoiceChange(_, v) => v.Some? ==> ValidVoice(v.value)
  }

  /** The exact condition of each answer. A request is committed if and only if it is
      acceptable and expects the stored generation, which for a whole draft may be none. */
  lemma AnswersExactly(current: Option<Configuration>, r: Request)
    ensures Answer(current, r).Invalid? <==> !Acceptable(r)
    ensures Answer(current, r).Committed? <==>
              Acceptable(r) && r.expected == Generation(current) && (r.WholeDraft? || current.Some?)
  {}

  /** A whole draft is stored as it was given, whatever was stored before. */
  lemma WholeDraftIsStored(current: Option<Configuration>, expected: int, d: Draft, now: nat)
    requires CommitDraft(current, expected, d, now).Committed?
    ensures var n := CommitDraft(current, expected, d, now).configuration;
            && n.generation == expected + 1 && n.activatedAt == now && n.draft == d
            && ValidConfiguration(n)
  {}

  /** Every section a commit does not replace is kept as it was. */
  lemma CommitFrames(c: Configuration, r: Request)
    requires Answer(Some(c), r).Committed?
    ensures var n := Answer(Some(c), r).configuration;
            && n.generation == c.generation + 1
            && (r.WholeDraft? ==> n.draft == r.draft && n.activatedAt == r.now)
            && (r.ModelChange? ==> n.draft.model == r.model)
            && (r.VoiceChange? ==> n.draft.voice == r.voice)
            && (r.ModelChange? ==> n.activatedAt == c.activatedAt && n.draft == c.draft.(model := n.draft.model)
                                   && Refs(n, VoiceOwner) == Refs(c, VoiceOwner))
            && (r.VoiceChange? ==> n.activatedAt == c.activatedAt && n.draft == c.draft.(voice := n.draft.voice)
                                   && Refs(n, ModelOwner) == Refs(c, ModelOwner))
            && (ValidConfiguration(c) ==> ValidConfiguration(n))
  {}

  /** The store that owns the active generation. Each method is one locked
      read-compare-write; `fault` is what the file system does underneath it. */
  class ConfigStore {
    var current: Option<Configuration>

    constructor ()
      ensures current == None
    {
      current := None;
    }

    method Commit(expected: int, draft: Draft, now: nat, fault: Fault) returns (r: CommitResult, thrown: bool)
      modifies this
      ensures r == CommitDraft(old(current), expected, draft, now)
      ensures thrown <==> r.Committed? && fault != Done
      ensures current == if fault == Refused then old(current)
              else Serve(old(current), [WholeDraft(expected, draft, now)])
    {
      r, thrown := Conflict, false;
      assert [WholeDraft(expected, draft, now)][..0] == [];
      if expected < 0 || !ValidDraft(draft) {
        return Invalid, false;
      }
      var generation := if current.Some? then current.value.generation else 0;
      if generation != expected {
        return Conflict, false;
      }
      var next := Configuration(expected + 1, now, draft);
      r := Committed(next);
      if fault != Refused {
        current := Some(next);
      }
      thrown := fault != Done;
    }

    method CommitVoiceChange(expected: int, voice: Option<VoiceConfig>, fault: Fault)
    returns (r: CommitResult, thrown: bool)
      modifies this
      ensures r == CommitVoice(old(current), expected, voice)
      ensures thrown <==> r.Committed? && fault != Done
      ensures current == if fault == Refused then old(current) else Serve(old(current), [VoiceChange(expected, voice)])
    {
      assert [VoiceChange(expected, voice)][..0] == [];
      if expected < 0 || (voice.Some? && !ValidVoice(voice.value)) {
        return Invalid, false;
      }
      if current.None? || current.value.generation != expected {
        return Conflict, false;
      }
      var next := current.value.(generation := expected + 1, draft := current.value.draft.(voice := voice));
      r := Committed(next);
      if fault != Refused {
        current := Some(next);
      }
      thrown := fault != Done;
    }

    method CommitModelChange(expected: int, model: ModelConfig, fault: Fault) returns (r: CommitResult, thrown: bool)
      modifies this
      ensures r == CommitModel(old(current), expected, model)
      ensures thrown <==> r.Committed? && fault != Done
      ensures current == if fault == Refused then old(current) else Serve(old(current), [ModelChange(expected, model)])
    {
      assert [ModelChange(expected, model)][..0] == [];
      if expected < 0 || !ValidModel(model, true) {
        return Invalid, false;
      }
      if current.None? || current.value.generation != expected {
        return Conflict, false;
      }
      var next := current.value.(generation := expected + 1, draft := current.value.draft.(model := model));
      r := Committed(next);
      if fault != Refused {
        current := Some(next);
      }
      thrown := fault != Done;
    }
  }
}
