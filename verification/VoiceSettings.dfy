/** The operational voice settings, on the stores they write in place: a change of both
    tracks at once, and the removal of the capability. Each call is a run of the protocol. */
module VoiceSettings {
  import opened Wrappers
  import opened Configurations
  import opened CleanupLedgers
  import opened CredentialProtocol
  import opened CredentialStores
  import opened ProtocolInvariant
  import opened ProtocolHistory
  import opened SettingsRuns
  import Startup
  import RecoveryPass

  /** What the collaborators answer about one track: the saved credential to reuse, the
      input check and the live probe. */
  datatype TrackAnswers = TrackAnswers(resolves: bool, preparation: Probe, probe: Probe)

  /** Whether the candidate runtime starts, whether the product was closed and the call
      cancelled by the time the commit was recorded, and whether the gateway activates. */
  datatype Answers = Answers(asr: TrackAnswers, tts: TrackAnswers, starts: bool, shutdown: bool, activates: bool)

  datatype DisableOutcome = Disabled(generation: int) | DisableConflict | DisableBusy | DisableUnavailable

  // -------------------------------------------------------------------------
  // The tracks of a candidate
  // -------------------------------------------------------------------------

  function Tracks(v: VoiceConfig): seq<Option<Locator>> {
    [v.asr.credential, v.tts.credential]
  }

  /** The credentials of the first `i` tracks. */
  function RefsUpTo(v: VoiceConfig, i: nat): set<Locator>
    requires i <= 2
  {
    set j | 0 <= j < i && Tracks(v)[j].Some? :: Tracks(v)[j].value
  }

  lemma AllTracks(v: VoiceConfig)
    ensures RefsUpTo(v, 0) == {} && RefsUpTo(v, 2) == VoiceRefs(v) && |Tracks(v)| == 2
  {
    assert Tracks(v)[0] == v.asr.credential && Tracks(v)[1] == v.tts.credential;
  }

  lemma NextTrack(v: VoiceConfig, i: nat)
    requires i < 2 && ValidVoice(v)
    ensures var l, refs, done := Tracks(v)[i], VoiceRefs(v), RefsUpTo(v, i);
            && done <= refs
            && if l.None? then RefsUpTo(v, i + 1) == done
               else && l.value in refs && l.value !in done && RefsUpTo(v, i + 1) == done + {l.value}
                    && refs - RefsUpTo(v, i + 1) == refs - done - {l.value} && ValidReference(VoiceOwner, l.value)
  {
    AllTracks(v);
  }

  lemma TracksDiffer(v: VoiceConfig)
    requires ValidVoice(v)
    ensures forall l, x :: l in VoiceRefs(v) && x in VoiceRefs(v) && l.Track() == x.Track() ==> l == x
    ensures forall l :: l in VoiceRefs(v) ==> ValidReference(VoiceOwner, l)
  {}

  lemma PlanIs(v: VoiceConfig)
    ensures var p := ReplaceVoice(v); PlanOwner(p) == VoiceOwner && PlanRefs(p) == VoiceRefs(v) && !p.DisableVoice?
    ensures ValidVoice(v) ==> ValidPlan(ReplaceVoice(v))
    ensures forall config, e :: CommitPlan(config, e, ReplaceVoice(v)) == CommitVoice(config, e, Some(v))
  {}

  lemma DisableIs()
    ensures PlanOwner(DisableVoice) == VoiceOwner && PlanRefs(DisableVoice) == {} && ValidPlan(DisableVoice)
    ensures forall config, e :: CommitPlan(config, e, DisableVoice) == CommitVoice(config, e, None)
  {}

  /** The credentials of the durable configuration that a change may adopt. */
  function OwnCredentials(config: Option<Configuration>): set<Locator> {
    if config.Some? then ManagedRefs(config.value, VoiceOwner) else {}
  }

  lemma OwnIs(c: Configuration, owners: seq<Locator>)
    requires owners == Startup.ManagedOwners(Some(c), VoiceOwner)
    ensures OwnCredentials(Some(c)) == ManagedRefs(c, VoiceOwner) == RecoveryPass.Remaining(owners, 0)
    ensures RecoveryPass.Remaining(owners, |owners|) == {} && c.generation >= 0
    ensures forall l :: l in owners ==> l in OwnCredentials(Some(c))
  {}

  /** In a valid configuration the two owners differ. */
  lemma OwnersDiffer(c: Configuration, owners: seq<Locator>)
    requires owners == Startup.ManagedOwners(Some(c), VoiceOwner) && ValidConfiguration(c)
    ensures forall i, j :: 0 <= i < j < |owners| ==> owners[i] != owners[j]
  {}

  /** Adopting one owner after the other; the first refusal ends it. */
  function AdoptAll(es: seq<Entry>, owners: seq<Locator>, g: int): LedgerResult
    decreases |owners|
  {
    if owners == [] then Ok(es)
    else
      var r := AdoptCommitted(VoiceOwner, es, owners[0], g);
      if r.Err? then r else AdoptAll(r.entries, owners[1..], g)
  }

  lemma AdoptAllStep(es: seq<Entry>, owners: seq<Locator>, i: nat, g: int)
    requires i < |owners|
    ensures var r := AdoptCommitted(VoiceOwner, es, owners[i], g);
            AdoptAll(es, owners[i..], g) == if r.Err? then r else AdoptAll(r.entries, owners[i + 1..], g)
  {
    assert owners[i..][1..] == owners[i + 1..];
  }

  lemma AdoptAllEnd(es: seq<Entry>, owners: seq<Locator>, g: int)
    ensures AdoptAll(es, owners[|owners|..], g) == Ok(es)
  {}

  /** What the commit call answers and stores. */
  lemma CommitCall(config: Option<Configuration>, c: Configuration, p: Plan, v: Option<VoiceConfig>, f: Fault)
    requires config == Some(c) && p == (if v.Some? then ReplaceVoice(v.value) else DisableVoice)
    ensures var r := CommitVoice(config, c.generation, v);
            && (r.Committed? ==> r.configuration.generation == c.generation + 1 && Some(r.configuration) != config)
            && (v.None? || ValidVoice(v.value) ==> r.Committed?)
            && CommittedConfig(config, c, p,
                               f) == (if f == Refused then config else Serve(config, [VoiceChange(c.generation, v)]))
            && Serve(config, [VoiceChange(c.generation, v)]) == (if r.Committed? then Some(r.configuration) else config)
  {
    assert [VoiceChange(c.generation, v)][..0] == [];
  }

  /** The voice capability was replaced by one commit. */
  predicate CommittedVoice(config: Option<Configuration>, expected: int, v: Option<VoiceConfig>,
                           config': Option<Configuration>) {
    config'.Some? && CommitVoice(config, expected, v) == Committed(config'.value)
  }

  lemma CommittedVoiceIs(config: Option<Configuration>, c: Configuration, v: Option<VoiceConfig>)
    requires config == Some(c)
    ensures var r := CommitVoice(config, c.generation, v);
            r.Committed? ==> CommittedVoice(config, c.generation, v, Some(r.configuration))
  {}

  lemma AbsentAfter(config: Option<Configuration>, c: Configuration)
    requires config == Some(c)
    ensures var r := CommitVoice(config, c.generation, None); r.Committed? ==> r.configuration.draft.voice == None
  {}

  // -------------------------------------------------------------------------
  // The settings owner
  // -------------------------------------------------------------------------

  class OperationalVoiceSettings {
    const config: ConfigStore
    const ledger: LedgerStore
    const vault: Vault
    var closed: bool
    var mutationInFlight: bool

    constructor (config: ConfigStore, ledger: LedgerStore, vault: Vault)
      ensures this.config == config && this.ledger == ledger && this.vault == vault && !closed && !mutationInFlight
    {
      this.config, this.ledger, this.vault := config, ledger, vault;
      closed, mutationInFlight := false, false;
    }

    /** Every configured credential is recorded as owned; the first failure ends the change. */
    method AdoptCurrent(c: Configuration, ghost p: Plan, faults: nat -> Fault, ghost s: System,
                        ghost before: seq<Action>)
      returns (ok: bool, k: nat, ghost trace: seq<Action>)
      requires ledger.owner == VoiceOwner && ValidConfiguration(c)
      requires Stands(VoiceOwner, s, faults, before, Adopting(c, p, ManagedRefs(c, VoiceOwner)), ledger.entries,
                      vault.secrets, config.current)
      modifies ledger
      ensures Stands(VoiceOwner, s, faults, trace, if ok then Adopting(c, p, {}) else Idle, ledger.entries,
                     vault.secrets, config.current)
      ensures UpTo(old(ledger.entries), c.generation) ==>
                AdoptedOver(old(ledger.entries), ledger.entries, c.generation, OwnCredentials(Some(c)))
      ensures NoFault(faults) ==>
                var q := AdoptAll(old(ledger.entries), Startup.ManagedOwners(Some(c), VoiceOwner), c.generation);
                (ok <==> q.Ok?) && (ok ==> ledger.entries == q.entries)
    {
      hide *;
      var owners := Startup.ManagedOwners(Some(c), VoiceOwner);
      OwnIs(c, owners);
      OwnersDiffer(c, owners);
      ghost var es0, own := ledger.entries, OwnCredentials(Some(c));
      if UpTo(es0, c.generation) {
        AdoptedFromItself(es0, c.generation, own);
      }
      k, trace := 0, before;
      assert owners[0..] == owners;
      while k < |owners|
        invariant k <= |owners| && ledger.owner == VoiceOwner
        invariant Stands(VoiceOwner, s, faults, trace, Adopting(c, p, RecoveryPass.Remaining(owners, k)),
                         ledger.entries, vault.secrets, config.current)
        invariant UpTo(es0, c.generation) ==> AdoptedOver(es0, ledger.entries, c.generation, own)
        invariant NoFault(faults) ==>
                  AdoptAll(ledger.entries, owners[k..], c.generation) == AdoptAll(es0, owners, c.generation)
      {
        AdoptAllStep(ledger.entries, owners, k, c.generation);
        if NoFault(faults) {
          FaultIs(faults, k, AdoptCommitted(VoiceOwner, ledger.entries, owners[k], c.generation));
        }
        RecoveryPass.RemainingStep(owners, k);
        trace := AdoptTurn(VoiceOwner, s, faults, trace, c, p, RecoveryPass.Remaining(owners, k),
                           RecoveryPass.Remaining(owners, k + 1),
                           owners[k], k, ledger.entries, vault.secrets, config.current);
        if UpTo(es0, c.generation) {
          AdoptMoves(VoiceOwner, es0, ledger.entries, c.generation, own, owners[k], faults(k));
        }
        ok := ledger.Adopt(owners[k], c.generation, faults(k));
        k := k + 1;
        if !ok {
          return;
        }
      }
      AdoptAllEnd(ledger.entries, owners, c.generation);
      ok := true;
    }

    /** Reserve, write and probe one track. `None` says that it is staged; otherwise what was
        staged is still to be abandoned, this track's credential included if `added`. */
    method StageTrack(c: Configuration, ghost p: Plan, credential: Option<Locator>, answer: TrackAnswers,
                      cancelled: nat -> bool, i: nat,
                      faults: nat -> Fault, n: nat, ghost refs: set<Locator>, ghost done: set<Locator>,
                      ghost es0: seq<Entry>,
                      ghost s: System, ghost before: seq<Action>)
      returns (failure: Option<Outcome>, added: bool, k: nat, ghost trace: seq<Action>)
      requires ledger.owner == VoiceOwner && (credential.Some? ==> credential.value in refs - done)
      requires Stands(VoiceOwner, s, faults, before, Staging(c, p, refs - done, done), ledger.entries, vault.secrets,
                      config.current)
      modifies ledger, vault
      ensures added ==> credential.Some?
      ensures var done' := if added then done + {credential.value} else done;
              && Stands(VoiceOwner, s, faults, trace,
                        if failure.None? then Staging(c, p, refs - done', done') else Abandoning(done', Rest),
                        ledger.entries, vault.secrets, config.current)
              && (NoFault(faults) && Midway(es0, old(ledger.entries), c.generation, done, {})
                  && (credential.Some? ==>
                      credential.value !in View(es0) && ValidReference(VoiceOwner, credential.value)) ==>
                    && Midway(es0, ledger.entries, c.generation, done', {})
                    && |ledger.entries| == |old(ledger.entries)| + (if added then 1 else 0)
                    && (failure.None? <==> TrackAgrees(credential, answer, cancelled, i, |old(ledger.entries)|))
                    && failure == First(TrackObstacles(credential, answer, cancelled, i, |old(ledger.entries)|)))
      ensures failure.None? ==>
              added == credential.Some? && vault.secrets == old(vault.secrets) + OptionalRef(credential)
      ensures old(vault.secrets) <= vault.secrets <= old(vault.secrets) + (if added then {credential.value} else {})
      ensures Explains(failure, answer, cancelled, i)
    {
      hide *;
      ghost var m := Staging(c, p, refs - done, done);
      TrackAnswerIs(credential, answer, cancelled, i, |ledger.entries|);
      FailsIs(answer);
      TrackIs(credential, answer, cancelled, i, |ledger.entries|);
      OptionalIs(credential);
      GenerationIs(c);
      k, trace, added, failure := n, before, false, None;
      if cancelled(4 + 3 * i) || answer.preparation.Failed? {
        trace := GiveUpTurn(VoiceOwner, s, faults, trace, m, ledger.entries, vault.secrets, config.current);
        failure := Some(if cancelled(4 + 3 * i) then Cancelled else ProbeFailed(answer.preparation.reason));
        ExplainsIs(failure, answer, cancelled, i);
        return;
      }
      if credential.Some? {
        var l := credential.value;
        ghost var es, done' := ledger.entries, done + {l};
        if NoFault(faults) && Midway(es0, es, c.generation, done, {}) && l !in View(es0)
        && ValidReference(VoiceOwner, l) {
          ReserveMoves(VoiceOwner, es0, es, c.generation, done, l);
          FaultIs(faults, k, Reserve(VoiceOwner, es, l, c.generation));
          FaultIs(faults, k + 1, Err(Malformed));
        }
        trace := ReserveTurn(VoiceOwner, s, faults, trace, c, p, refs - done, done, l, k, refs - done', done', es,
                             vault.secrets, config.current);
        var ok := ledger.ReserveEntry(l, c.generation, faults(k));
        k := k + 1;
        if !ok {
          failure := Some(Outcome.Unavailable);
          ExplainsIs(failure, answer, cancelled, i);
          return;
        }
        added := true;
        if cancelled(5 + 3 * i) {
          trace := GiveUpTurn(VoiceOwner, s, faults, trace, Writing(c, p, l, refs - done', done'), ledger.entries,
                              vault.secrets, config.current);
          failure := Some(Cancelled);
          ExplainsIs(failure, answer, cancelled, i);
          return;
        }
        trace := WriteTurn(VoiceOwner, s, faults, trace, c, p, l, refs - done', done', k, ledger.entries,
                           vault.secrets, config.current);
        ok := vault.Write(l, faults(k));
        k := k + 1;
        if !ok {
          failure := Some(if cancelled(6 + 3 * i) then Cancelled else ProbeFailed("unavailable"));
          ExplainsIs(failure, answer, cancelled, i);
          return;
        }
        m := Staging(c, p, refs - done', done');
      }
      if cancelled(6 + 3 * i) || answer.probe.Failed? {
        trace := GiveUpTurn(VoiceOwner, s, faults, trace, m, ledger.entries, vault.secrets, config.current);
        failure := Some(if cancelled(6 + 3 * i) then Cancelled else ProbeFailed(answer.probe.reason));
        ExplainsIs(failure, answer, cancelled, i);
        return;
      }
      ExplainsIs(failure, answer, cancelled, i);
    }

    /** One track after the other. */
    method StageTracks(c: Configuration, v: VoiceConfig, answers: Answers, cancelled: nat -> bool,
                       faults: nat -> Fault, n: nat,
                       ghost s: System, ghost before: seq<Action>)
      returns (failure: Option<Outcome>, staged: seq<Locator>, k: nat, ghost trace: seq<Action>)
      requires ledger.owner == VoiceOwner && ValidVoice(v)
      requires Stands(VoiceOwner, s, faults, before, Staging(c, ReplaceVoice(v), VoiceRefs(v), {}), ledger.entries,
                      vault.secrets, config.current)
      modifies ledger, vault
      ensures Distinct(staged) && Elements(staged) <= VoiceRefs(v)
      ensures Stands(VoiceOwner, s, faults, trace,
                     if failure.None? then Staging(c, ReplaceVoice(v), {}, VoiceRefs(v))
                     else Abandoning(Elements(staged), Rest),
                     ledger.entries, vault.secrets, config.current)
      ensures failure.None? ==> Elements(staged) == VoiceRefs(v) && vault.secrets == old(vault.secrets) + VoiceRefs(v)
      ensures old(vault.secrets) <= vault.secrets <= old(vault.secrets) + Elements(staged)
      ensures failure.Some? ==>
              && ChangeExplains(failure.value, answers, cancelled)
              && failure.value != Conflicting && failure.value != Busy && !failure.value.Configured?
      ensures NoFault(faults) && UpTo(old(ledger.entries), c.generation)
              && NewTo(VoiceOwner, old(ledger.entries), VoiceRefs(v)) ==>
                && Midway(old(ledger.entries), ledger.entries, c.generation, Elements(staged), {})
                && (failure.None? <==> Stageable(v, answers, cancelled, |old(ledger.entries)|))
                && failure == First(StageObstacles(v, answers, cancelled, |old(ledger.entries)|))
    {
      hide *;
      ghost var p, g, refs, es0, vs0 := ReplaceVoice(v), c.generation, VoiceRefs(v), ledger.entries, vault.secrets;
      ghost var tidy := NoFault(faults) && UpTo(es0, g) && NewTo(VoiceOwner, es0, refs);
      AllTracks(v);
      StageableIs(v, answers, cancelled, |es0|);
      StageAnswerIs(v, answers, cancelled, |es0|);
      if tidy {
        MidwayStart(es0, g);
      }
      NoElements();
      assert refs - RefsUpTo(v, 0) == refs;
      staged, k, trace, failure := [], n, before, None;
      var i := 0;
      while i < 2
        invariant 0 <= i <= 2 && ledger.owner == VoiceOwner && failure == None
        invariant Stands(VoiceOwner, s, faults, trace, Staging(c, p, refs - RefsUpTo(v, i), RefsUpTo(v, i)),
                         ledger.entries, vault.secrets, config.current)
        invariant Distinct(staged) && Elements(staged) == RefsUpTo(v, i) <= refs
        invariant vault.secrets == vs0 + RefsUpTo(v, i)
        invariant tidy ==> Midway(es0, ledger.entries, g, RefsUpTo(v, i), {})
        invariant tidy && i > 0 ==> TrackAgrees(Tracks(v)[0], answers.asr, cancelled, 0, |es0|)
        invariant tidy && i > 0 ==> First(TrackObstacles(Tracks(v)[0], answers.asr, cancelled, 0, |es0|)).None?
        invariant tidy && i == 2 ==> First(StageObstacles(v, answers, cancelled, |es0|)).None?
        invariant tidy && i < 2 ==> |ledger.entries| == if i == 1 && Tracks(v)[0].Some? then |es0| + 1 else |es0|
        invariant tidy && i == 2 ==> Stageable(v, answers, cancelled, |es0|)
      {
        NextTrack(v, i);
        ghost var done := RefsUpTo(v, i);
        var credential := Tracks(v)[i];
        OptionalIs(credential);
        if credential.Some? {
          Appended(staged, credential.value);
          if tidy {
            NewAt(VoiceOwner, es0, refs, credential.value);
          }
        }
        var added: bool;
        failure, added, k,
        trace := StageTrack(c, p, credential, if i == 0 then answers.asr else answers.tts, cancelled, i,
                                               faults, k, refs, done, es0, s, trace);
        if added {
          staged := staged + [credential.value];
        }
        if failure.Some? {
          TracksExplain(failure, answers, cancelled, i);
          return;
        }
        i := i + 1;
      }
      assert refs - RefsUpTo(v, 2) == {};
    }

    /** The failure path: every staged credential is abandoned, as far as that works. */
    method AbandonCandidate(staged: seq<Locator>, faults: nat -> Fault, n: nat, ghost es0: seq<Entry>, ghost g: int,
                            ghost s: System, ghost before: seq<Action>)
      returns (k: nat, ghost trace: seq<Action>)
      requires ledger.owner == VoiceOwner && Distinct(staged)
      requires Stands(VoiceOwner, s, faults, before, Abandoning(Elements(staged), Rest), ledger.entries, vault.secrets,
                      config.current)
      modifies ledger, vault
      ensures Stands(VoiceOwner, s, faults, trace, Idle, ledger.entries, vault.secrets, config.current)
      ensures old(vault.secrets) - Elements(staged) <= vault.secrets <= old(vault.secrets)
      ensures NoFault(faults) && Midway(es0, old(ledger.entries), g, Elements(staged), {})
              && NewTo(VoiceOwner, es0, Elements(staged)) ==>
                Midway(es0, ledger.entries, g, {}, {}) && vault.secrets == old(vault.secrets) - Elements(staged)
    {
      hide *;
      ghost var refs, vs0 := Elements(staged), vault.secrets;
      ghost var tidy := NoFault(faults) && Midway(es0, ledger.entries, g, refs, {}) && NewTo(VoiceOwner, es0, refs);
      RemainingElements(staged);
      k, trace := n, before;
      var i := 0;
      while i < |staged|
        invariant i <= |staged| && ledger.owner == VoiceOwner
        invariant Stands(VoiceOwner, s, faults, trace, Abandoning(RecoveryPass.Remaining(staged, i), Rest),
                         ledger.entries, vault.secrets, config.current)
        invariant RecoveryPass.Remaining(staged, i) <= refs
        invariant vs0 - (refs - RecoveryPass.Remaining(staged, i)) <= vault.secrets <= vs0
        invariant tidy ==> Midway(es0, ledger.entries, g, RecoveryPass.Remaining(staged, i), {})
                           && vault.secrets == vs0 - (refs - RecoveryPass.Remaining(staged, i))
      {
        ghost var left, es := RecoveryPass.Remaining(staged, i), ledger.entries;
        RemainingOne(staged, i);
        if tidy {
          NewAt(VoiceOwner, es0, refs, staged[i]);
          StagedIsAbandonable(VoiceOwner, es0, es, g, left, {}, staged[i]);
        }
        k, trace := AbandonOne(ledger, vault, staged[i], faults, k, left, RecoveryPass.Remaining(staged, i + 1),
                               config.current, s, trace);
        if tidy {
          AbandonMoves(es0, es, ledger.entries, g, left, staged[i]);
        }
        i := i + 1;
      }
      trace := SettleTurn(VoiceOwner, s, faults, trace, RecoveryPass.AnyLocator, ledger.entries, vault.secrets,
                          config.current);
    }

    /** Every staged credential is recorded as committed; what fails is left to start-up. */
    method RecordCommitted(c: Configuration, staged: seq<Locator>, faults: nat -> Fault, n: nat, ghost p: Plan,
                           ghost es0: seq<Entry>,
                           ghost s: System, ghost before: seq<Action>)
      returns (ghost trace: seq<Action>)
      requires ledger.owner == VoiceOwner && Distinct(staged)
      requires Stands(VoiceOwner, s, faults, before, Marking(c, p, c.generation + 1, Elements(staged), {}),
                      ledger.entries, vault.secrets, config.current)
      modifies ledger
      ensures Stands(VoiceOwner, s, faults, trace, Marking(c, p, c.generation + 1, {}, {}), ledger.entries,
                     vault.secrets, config.current)
      ensures NoFault(faults) && Midway(es0, old(ledger.entries), c.generation, Elements(staged), {})
              && NewTo(VoiceOwner, es0, Elements(staged)) ==>
                Midway(es0, ledger.entries, c.generation, {}, Elements(staged))
    {
      hide *;
      ghost var refs, g := Elements(staged), c.generation;
      ghost var tidy := NoFault(faults) && Midway(es0, ledger.entries, g, refs, {}) && NewTo(VoiceOwner, es0, refs);
      RemainingElements(staged);
      GenerationIs(c);
      assert refs - RecoveryPass.Remaining(staged, 0) == {};
      trace := before;
      var i := 0;
      while i < |staged|
        invariant i <= |staged| && ledger.owner == VoiceOwner
        invariant Stands(VoiceOwner, s, faults, trace, Marking(c, p, g + 1, RecoveryPass.Remaining(staged, i), {}),
                         ledger.entries, vault.secrets, config.current)
        invariant RecoveryPass.Remaining(staged, i) <= refs
        invariant tidy ==>
                  Midway(es0, ledger.entries, g, RecoveryPass.Remaining(staged, i),
                         refs - RecoveryPass.Remaining(staged, i))
      {
        ghost var left, es, l := RecoveryPass.Remaining(staged, i), ledger.entries, staged[i];
        RemainingOne(staged, i);
        ghost var r := MarkCommitted(VoiceOwner, es, l, g, g + 1);
        if tidy {
          NewAt(VoiceOwner, es0, refs, l);
          NewTracks(VoiceOwner, es0, refs, l);
          FaultIs(faults, n + i, r);
          MarkMoves(VoiceOwner, es0, es, g, left, refs - left, l);
          assert refs - left + {l} == refs - RecoveryPass.Remaining(staged, i + 1);
        }
        trace := MarkTurn(VoiceOwner, s, faults, trace, c, p, g + 1, left, RecoveryPass.Remaining(staged, i + 1), l,
                          n + i, {},
                          es, vault.secrets, config.current);
        var ok := ledger.MarkEntryCommitted(staged[i], c.generation, c.generation + 1, faults(n + i));
        i := i + 1;
      }
      assert refs - RecoveryPass.Remaining(staged, |staged|) == refs;
    }

    /** Start the candidate runtime, commit, record, activate. */
    method CommitCandidate(c: Configuration, v: VoiceConfig, answers: Answers, cancelled: nat -> bool,
                           staged: seq<Locator>, faults: nat -> Fault, n: nat,
                           ghost es0: seq<Entry>, ghost s: System, ghost before: seq<Action>)
      returns (r: Outcome, ghost trace: seq<Action>)
      requires ledger.owner == VoiceOwner && ValidVoice(v) && config.current == Some(c)
      requires Distinct(staged) && Elements(staged) == VoiceRefs(v)
      requires Stands(VoiceOwner, s, faults, before, Staging(c, ReplaceVoice(v), {}, VoiceRefs(v)), ledger.entries,
                      vault.secrets, config.current)
      modifies config, ledger, vault
      ensures Stands(VoiceOwner, s, faults, trace, Idle, ledger.entries, vault.secrets, config.current)
      ensures config.current == old(config.current)
              || CommittedVoice(old(config.current), c.generation, Some(v), config.current)
      ensures r.Configured? ==>
              CommittedVoice(old(config.current), c.generation, Some(v), config.current)
              && r.generation == c.generation + 1
      ensures (forall i :: faults(i) != Lost) && config.current != old(config.current) ==>
                vault.secrets == old(vault.secrets)
                && (r.Configured? || (r == Outcome.Unavailable && !answers.activates && !answers.shutdown))
      ensures r.Configured? ==> vault.secrets == old(vault.secrets) && (answers.activates || answers.shutdown)
      ensures (r == Cancelled && cancelled(10)) || r == Outcome.Unavailable || r.Configured?
      ensures NoFault(faults) ==> r == AnswerOf(CommitObstacles(answers, cancelled), Configured(c.generation + 1))
      ensures NoFault(faults) && Midway(es0, old(ledger.entries), c.generation, VoiceRefs(v), {})
              && NewTo(VoiceOwner, es0, VoiceRefs(v)) ==>
                && (config.current != old(config.current) <==> answers.starts && !cancelled(10))
                && (if config.current != old(config.current)
                    then Midway(es0, ledger.entries, c.generation, {}, VoiceRefs(v))
                         && (r.Configured? <==> answers.activates || answers.shutdown)
                    else Midway(es0, ledger.entries, c.generation, {}, {})
                         && vault.secrets == old(vault.secrets) - VoiceRefs(v))
    {
      hide *;
      ghost var p, refs, vs0 := ReplaceVoice(v), VoiceRefs(v), vault.secrets;
      PlanIs(v);
      CommitAnswerIs(answers, cancelled);
      AnswerOfIs(CommitObstacles(answers, cancelled), Configured(c.generation + 1));
      var k: nat;
      if !answers.starts || cancelled(10) {
        trace := GiveUpTurn(VoiceOwner, s, faults, before, Staging(c, p, {}, refs), ledger.entries, vault.secrets,
                            config.current);
        k, trace := AbandonCandidate(staged, faults, n, es0, c.generation, s, trace);
        r := if cancelled(10) then Cancelled else Outcome.Unavailable;
        return;
      }
      if NoFault(faults) {
        FaultIs(faults, n, Err(Malformed));
      }
      trace := CommitTurn(VoiceOwner, s, faults, before, c, p, refs, refs, RecoveryPass.AnyLocator, n, ledger.entries,
                          vault.secrets, config.current);
      CommitCall(config.current, c, p, Some(v), faults(n));
      CommittedVoiceIs(config.current, c, Some(v));
      var answer, thrown := config.CommitVoiceChange(c.generation, Some(v), faults(n));
      if !answer.Committed? || thrown {
        k, trace := AbandonCandidate(staged, faults, n + 1, es0, c.generation, s, trace);
        r := if answer.Conflict? then Conflicting else Outcome.Unavailable;
        return;
      }
      trace := RecordCommitted(c, staged, faults, n + 1, p, es0, s, trace);
      trace := SwapTurn(VoiceOwner, s, faults, trace, c, p, c.generation + 1, answers.activates && !answers.shutdown,
                        ledger.entries, vault.secrets, config.current);
      r := if answers.activates || answers.shutdown then Configured(answer.configuration.generation)
          else Outcome.Unavailable;
    }

    /** One configure call from start to answer. */
    method ConfigureCandidate(expected: int, v: VoiceConfig, answers: Answers, cancelled: nat -> bool,
                              faults: nat -> Fault, ghost s: System)
      returns (r: Outcome, ghost trace: seq<Action>)
      requires ledger.owner == VoiceOwner && (config.current.Some? ==> ValidConfiguration(config.current.value))
      requires Stands(VoiceOwner, s, faults, [], Idle, ledger.entries, vault.secrets, config.current)
      requires ValidVoice(v) && VoiceRefs(v) !! s.issued
      modifies config, ledger, vault
      ensures Stands(VoiceOwner, s, faults, trace, Idle, ledger.entries, vault.secrets, config.current)
      ensures config.current == old(config.current)
              || CommittedVoice(old(config.current), expected, Some(v), config.current)
      ensures r.Configured? ==>
              CommittedVoice(old(config.current), expected, Some(v), config.current) && r.generation == expected + 1
                                && vault.secrets == old(vault.secrets) + VoiceRefs(v)
                                && (answers.activates || answers.shutdown)
      ensures (forall i :: faults(i) != Lost) && config.current != old(config.current) ==>
                && vault.secrets == old(vault.secrets) + VoiceRefs(v)
                && (r.Configured? || (r == Outcome.Unavailable && !answers.activates && !answers.shutdown))
      ensures old(config.current).None? || old(config.current).value.generation != expected ==>
                r == (if cancelled(0) then Cancelled else Conflicting) && config.current == old(config.current)
                && ledger.entries == old(ledger.entries) && vault.secrets == old(vault.secrets)
      ensures r != Busy && ChangeExplains(r, answers, cancelled)
      ensures r == Conflicting <==> !cancelled(0) && Stale(old(config.current), expected)
      ensures NoFault(faults) && Inv(s, false) ==>
                r == Answered(old(config.current), old(ledger.entries), expected, v, answers, cancelled)
      ensures NoFault(faults) && Inv(s, false) ==>
                && Leaves(old(ledger.entries), ledger.entries, old(vault.secrets), vault.secrets, VoiceRefs(v),
                          if config.current != old(config.current) then Some(expected + 1)
                          else None, OwnCredentials(old(config.current)))
                && (config.current != old(config.current) <==>
                    GoesThrough(old(config.current), old(ledger.entries), expected, v, answers, cancelled))
                && (config.current != old(config.current) ==>
                    (r.Configured? <==> answers.activates || answers.shutdown))
    {
      hide *;
      var p, refs := ReplaceVoice(v), VoiceRefs(v);
      PlanIs(v);
      TracksDiffer(v);
      ghost var es0, vs0, own := ledger.entries, vault.secrets, OwnCredentials(config.current);
      ghost var tidy := NoFault(faults) && Inv(s, false);
      AnsweredIs(config.current, es0, expected, v, answers, cancelled);
      StaleIs(config.current, expected);
      StandsAtStart(VoiceOwner, s, faults, es0, vs0, config.current);
      if tidy {
        UnissuedIsNew(VoiceOwner, s, refs);
        UntouchedLeaves(VoiceOwner, es0, vs0, refs, own);
        GoesNowhere(config.current, es0, expected, v, answers, cancelled);
      }
      trace := [];
      var current := config.current;
      if cancelled(0) {
        LooksExplain(Cancelled, answers, cancelled);
        return Cancelled, trace;
      }
      if current.None? || current.value.generation != expected {
        LooksExplain(Conflicting, answers, cancelled);
        return Conflicting, trace;
      }
      var c := current.value;
      ghost var g := c.generation;
      ChangeAnswerIs(c, es0, v, answers, cancelled);
      AnswerOfIs(ChangeObstacles(c, es0, v, answers, cancelled), Configured(expected + 1));
      OwnIs(c, Startup.ManagedOwners(current, VoiceOwner));
      GoesThroughIs(c, es0, v, answers, cancelled);
      trace := BeginTurn(VoiceOwner, s, faults, p, ledger.entries, vault.secrets, config.current);
      var ok, k;
      ok, k, trace := AdoptCurrent(c, p, faults, s, trace);
      ghost var es1 := ledger.entries;
      if tidy {
        AdoptedKeepsNew(VoiceOwner, es0, es1, g, own, refs);
        UntouchedLeaves(VoiceOwner, es1, vs0, refs, {});
        LeavesAfterAdopting(es0, es1, es1, vs0, vs0, g, refs, None, own);
      }
      if !ok {
        LooksExplain(Outcome.Unavailable, answers, cancelled);
        return Outcome.Unavailable, trace;
      }
      if cancelled(1) || cancelled(2) || cancelled(3) || !answers.asr.resolves || !answers.tts.resolves {
        trace := GiveUpTurn(VoiceOwner, s, faults, trace, Adopting(c, p, {}), ledger.entries, vault.secrets,
                            config.current);
        r := if cancelled(1) || cancelled(2) || cancelled(3) then Cancelled else Outcome.Unavailable;
        LooksExplain(r, answers, cancelled);
        return;
      }
      trace := AdoptedTurn(VoiceOwner, s, faults, trace, c, p, RecoveryPass.AnyLocator, ledger.entries, vault.secrets,
                           config.current);
      AnswerOfIs(StageObstacles(v, answers, cancelled, |es1|) + CommitObstacles(answers, cancelled), Configured(g + 1));
      r, trace := StageAndCommit(c, v, answers, cancelled, faults, k, s, trace);
      if tidy {
        LeavesAfterAdopting(es0, es1, ledger.entries, vs0, vault.secrets, g, refs,
                            if config.current != current then Some(g + 1) else None, own);
      }
    }

    /** Both tracks, then the commit; what was staged before a failure is abandoned. */
    method StageAndCommit(c: Configuration, v: VoiceConfig, answers: Answers, cancelled: nat -> bool,
                          faults: nat -> Fault, n: nat, ghost s: System, ghost before: seq<Action>)
      returns (r: Outcome, ghost trace: seq<Action>)
      requires ledger.owner == VoiceOwner && ValidVoice(v) && config.current == Some(c)
      requires Stands(VoiceOwner, s, faults, before, Staging(c, ReplaceVoice(v), VoiceRefs(v), {}), ledger.entries,
                      vault.secrets, config.current)
      modifies config, ledger, vault
      ensures Stands(VoiceOwner, s, faults, trace, Idle, ledger.entries, vault.secrets, config.current)
      ensures config.current == old(config.current)
              || CommittedVoice(old(config.current), c.generation, Some(v), config.current)
      ensures r.Configured? ==>
              CommittedVoice(old(config.current), c.generation, Some(v), config.current)
              && r.generation == c.generation + 1 && vault.secrets == old(vault.secrets) + VoiceRefs(v)
              && (answers.activates || answers.shutdown)
      ensures (forall i :: faults(i) != Lost) && config.current != old(config.current) ==>
                && vault.secrets == old(vault.secrets) + VoiceRefs(v)
                && (r.Configured? || (r == Outcome.Unavailable && !answers.activates && !answers.shutdown))
      ensures r != Busy && r != Conflicting && ChangeExplains(r, answers, cancelled)
      ensures NoFault(faults) && UpTo(old(ledger.entries), c.generation)
              && NewTo(VoiceOwner, old(ledger.entries), VoiceRefs(v)) && VoiceRefs(v) !! old(vault.secrets) ==>
                && Leaves(old(ledger.entries), ledger.entries, old(vault.secrets), vault.secrets, VoiceRefs(v),
                          if config.current != old(config.current) then Some(c.generation + 1) else None, {})
                && (config.current != old(config.current) <==>
                    Stageable(v, answers, cancelled, |old(ledger.entries)|) && answers.starts && !cancelled(10))
                && (config.current != old(config.current) ==>
                    (r.Configured? <==> answers.activates || answers.shutdown))
                && r == AnswerOf(StageObstacles(v, answers, cancelled, |old(ledger.entries)|)
                                 + CommitObstacles(answers, cancelled), Configured(c.generation + 1))
    {
      hide *;
      ghost var p, g, refs, es1, vs0 := ReplaceVoice(v), c.generation, VoiceRefs(v), ledger.entries, vault.secrets;
      ghost var tidy := NoFault(faults) && UpTo(es1, g) && NewTo(VoiceOwner, es1, refs) && refs !! vs0;
      ghost var stage, commit := StageObstacles(v, answers, cancelled, |es1|), CommitObstacles(answers, cancelled);
      FirstOfBoth(stage, commit);
      AnswerOfIs(stage + commit, Configured(g + 1));
      AnswerOfIs(commit, Configured(g + 1));
      var failure, staged, k;
      failure, staged, k, trace := StageTracks(c, v, answers, cancelled, faults, n, s, before);
      ghost var vs1 := vault.secrets;
      if failure.Some? {
        if tidy {
          NewPart(VoiceOwner, es1, refs, Elements(staged));
        }
        k, trace := AbandonCandidate(staged, faults, k, es1, g, s, trace);
        if tidy {
          Removed(vs0, vs1, Elements(staged), refs);
          AbandonedLeaves(VoiceOwner, es1, ledger.entries, vs0, g, refs);
        }
        return failure.value, trace;
      }
      r, trace := CommitCandidate(c, v, answers, cancelled, staged, faults, k, es1, s, trace);
      LooksExplain(r, answers, cancelled);
      if tidy {
        NeverLost(faults);
        Removed(vs0, vs1, refs, refs);
        if config.current != old(config.current) {
          CommittedLeaves(es1, ledger.entries, vs0, vault.secrets, g, refs);
        } else {
          AbandonedLeaves(VoiceOwner, es1, ledger.entries, vs0, g, refs);
        }
      }
    }

    /** The entry point: closed, cancelled and overlapping calls are answered without an
        effect; a call that met no lost write leaves every secret of the owner accounted for. */
    method Configure(expected: int, v: VoiceConfig, answers: Answers, aborted: bool, cancelled: nat -> bool,
                     faults: nat -> Fault, ghost s: System)
      returns (r: Outcome, ghost trace: seq<Action>)
      requires ledger.owner == VoiceOwner && (config.current.Some? ==> ValidConfiguration(config.current.value))
      requires !closed && !mutationInFlight ==>
               Stands(VoiceOwner, s, faults, [], Idle, ledger.entries, vault.secrets, config.current)
      requires ValidVoice(v) && VoiceRefs(v) !! s.issued
      modifies this`mutationInFlight, config, ledger, vault
      ensures mutationInFlight == old(mutationInFlight)
      ensures old(closed) || aborted ==> r == Cancelled
      ensures !old(closed) && !aborted && old(mutationInFlight) ==> r == Busy
      ensures r == Busy || old(closed) || aborted ==>
                config.current == old(config.current) && ledger.entries == old(ledger.entries)
                && vault.secrets == old(vault.secrets)
      ensures !old(closed) && !aborted && !old(mutationInFlight) ==>
                && r != Busy && ChangeExplains(r, answers, cancelled)
                && (r == Conflicting <==> !cancelled(0) && Stale(old(config.current), expected))
                && (NoFault(faults) && Inv(s, false) ==>
                      r == Answered(old(config.current), old(ledger.entries), expected, v, answers, cancelled))
                && Stands(VoiceOwner, s, faults, trace, Idle, ledger.entries, vault.secrets, config.current)
                && (config.current == old(config.current)
                    || CommittedVoice(old(config.current), expected, Some(v), config.current))
                && ((forall i :: faults(i) != Lost) ==>
                      && SoundRun(s, trace, false)
                      && (config.current != old(config.current) ==>
                            && vault.secrets == old(vault.secrets) + VoiceRefs(v)
                            && (r.Configured? || (r == Outcome.Unavailable && !answers.activates && !answers.shutdown)))
                      && (Inv(s, false) ==>
                            forall l :: l in vault.secrets && l.managed && l.Owner() == VoiceOwner ==>
                              (config.current.Some? && l in AllRefs(config.current.value))
                              || l in View(ledger.entries)))
                && (NoFault(faults) && Inv(s, false) ==>
                      && Leaves(old(ledger.entries), ledger.entries, old(vault.secrets), vault.secrets, VoiceRefs(v),
                                if config.current != old(config.current) then Some(expected + 1)
                                else None, OwnCredentials(old(config.current)))
                      && (config.current != old(config.current) <==>
                            GoesThrough(old(config.current), old(ledger.entries), expected, v, answers, cancelled)))
    {
      hide *;
      trace := [];
      if closed || aborted {
        return Cancelled, trace;
      }
      if mutationInFlight {
        return Busy, trace;
      }
      mutationInFlight := true;
      r, trace := ConfigureCandidate(expected, v, answers, cancelled, faults, s);
      mutationInFlight := false;
      if forall i :: faults(i) != Lost {
        CarefulCallIsSound(VoiceOwner, s, faults, trace, ledger.entries, vault.secrets, config.current);
      }
    }

    /** Removing the capability: adopt what it owns, commit its absence, switch the gateway
        off. Nothing is staged, so nothing is abandoned. */
    method DisableCurrent(expected: int, switchesOff: bool, cancelled: nat -> bool, faults: nat -> Fault,
                          ghost s: System)
      returns (r: DisableOutcome, ghost trace: seq<Action>)
      requires ledger.owner == VoiceOwner && (config.current.Some? ==> ValidConfiguration(config.current.value))
      requires Stands(VoiceOwner, s, faults, [], Idle, ledger.entries, vault.secrets, config.current)
      modifies config, ledger
      ensures Stands(VoiceOwner, s, faults, trace, Idle, ledger.entries, vault.secrets, config.current)
      ensures config.current == old(config.current)
              || CommittedVoice(old(config.current), expected, None, config.current)
      ensures r.Disabled? ==>
              config.current.Some? && config.current.value.draft.voice.None?
              && r.generation == config.current.value.generation
      ensures r.Disabled? && old(config.current).Some? && old(config.current).value.draft.voice.None? ==>
              config.current == old(config.current)
      ensures (forall i :: faults(i) != Lost) && config.current != old(config.current) ==>
                r.Disabled? || (r == DisableUnavailable && !switchesOff)
      ensures r == DisableConflict ==> config.current == old(config.current) && ledger.entries == old(ledger.entries)
      ensures r == DisableConflict <==> !cancelled(0) && Stale(old(config.current), expected)
      ensures r.Disabled? || config.current != old(config.current) ==>
              !cancelled(0) && !cancelled(1) && !Stale(old(config.current), expected)
      ensures config.current != old(config.current) ==> old(config.current).value.draft.voice.Some?
      ensures r.Disabled? ==>
              r.generation == if old(config.current).value.draft.voice.None? then expected else expected + 1
      ensures r != DisableBusy
      ensures NoFault(faults) ==>
                var off := Removable(old(config.current), old(ledger.entries), expected, cancelled);
                && (config.current != old(config.current) <==> off && old(config.current).value.draft.voice.Some?)
                && (r.Disabled? <==> off && (old(config.current).value.draft.voice.None? || switchesOff))
      ensures NoFault(faults) && config.current != old(config.current) ==>
                Ok(ledger.entries) == AdoptAll(old(ledger.entries),
                                               Startup.ManagedOwners(old(config.current), VoiceOwner), expected)
    {
      hide *;
      ghost var p := DisableVoice;
      DisableIs();
      StaleIs(config.current, expected);
      RemovableIs(config.current, ledger.entries, expected, cancelled);
      StandsAtStart(VoiceOwner, s, faults, ledger.entries, vault.secrets, config.current);
      trace := [];
      var current := config.current;
      if cancelled(0) {
        return DisableUnavailable, trace;
      }
      if current.None? || current.value.generation != expected {
        return DisableConflict, trace;
      }
      var c := current.value;
      OwnIs(c, Startup.ManagedOwners(current, VoiceOwner));
      trace := BeginTurn(VoiceOwner, s, faults, p, ledger.entries, vault.secrets, config.current);
      var ok, k;
      ok, k, trace := AdoptCurrent(c, p, faults, s, trace);
      if !ok {
        return DisableUnavailable, trace;
      }
      if cancelled(1) {
        trace := GiveUpTurn(VoiceOwner, s, faults, trace, Adopting(c, p, {}), ledger.entries, vault.secrets,
                            config.current);
        return DisableUnavailable, trace;
      }
      trace := AdoptedTurn(VoiceOwner, s, faults, trace, c, p, RecoveryPass.AnyLocator, ledger.entries, vault.secrets,
                           config.current);
      if c.draft.voice.None? {
        return Disabled(c.generation), trace;
      }
      trace := CommitTurn(VoiceOwner, s, faults, trace, c, p, {}, {}, RecoveryPass.AnyLocator, k, ledger.entries,
                          vault.secrets, config.current);
      if NoFault(faults) {
        FaultIs(faults, k, Err(Malformed));
      }
      CommitCall(config.current, c, p, None, faults(k));
      CommittedVoiceIs(config.current, c, None);
      var answer, thrown := config.CommitVoiceChange(c.generation, None, faults(k));
      if !answer.Committed? || thrown {
        trace := SettleTurn(VoiceOwner, s, faults, trace, RecoveryPass.AnyLocator, ledger.entries, vault.secrets,
                            config.current);
        return if answer.Conflict? then DisableConflict else DisableUnavailable, trace;
      }
      AbsentAfter(current, c);
      trace := SwapTurn(VoiceOwner, s, faults, trace, c, p, c.generation + 1, switchesOff, ledger.entries,
                        vault.secrets, config.current);
      r := if switchesOff then Disabled(answer.configuration.generation) else DisableUnavailable;
    }

    /** The entry point: a closed owner is unavailable, an overlapping call busy. */
    method Disable(expected: int, switchesOff: bool, cancelled: nat -> bool, faults: nat -> Fault, ghost s: System)
      returns (r: DisableOutcome, ghost trace: seq<Action>)
      requires ledger.owner == VoiceOwner && (config.current.Some? ==> ValidConfiguration(config.current.value))
      requires !closed && !mutationInFlight ==>
               Stands(VoiceOwner, s, faults, [], Idle, ledger.entries, vault.secrets, config.current)
      modifies this`mutationInFlight, config, ledger
      ensures mutationInFlight == old(mutationInFlight)
      ensures old(closed) ==> r == DisableUnavailable
      ensures !old(closed) && old(mutationInFlight) ==> r == DisableBusy
      ensures old(closed) || old(mutationInFlight) ==>
              config.current == old(config.current) && ledger.entries == old(ledger.entries)
      ensures !old(closed) && !old(mutationInFlight) ==>
                && r != DisableBusy
                && (r == DisableConflict <==> !cancelled(0) && Stale(old(config.current), expected))
                && (r.Disabled? || config.current != old(config.current) ==>
                      !cancelled(0) && !cancelled(1) && !Stale(old(config.current), expected))
                && (r.Disabled? ==>
                      r.generation == if old(config.current).value.draft.voice.None? then expected else expected + 1)
                && (NoFault(faults) ==>
                      var off := Removable(old(config.current), old(ledger.entries), expected, cancelled);
                      && (config.current != old(config.current) <==> off && old(config.current).value.draft.voice.Some?)
                      && (r.Disabled? <==> off && (old(config.current).value.draft.voice.None? || switchesOff)))
                && Stands(VoiceOwner, s, faults, trace, Idle, ledger.entries, vault.secrets, config.current)
                && (config.current == old(config.current)
                    || CommittedVoice(old(config.current), expected, None, config.current))
                && (r.Disabled? ==>
                    config.current.Some? && config.current.value.draft.voice.None?
                    && r.generation == config.current.value.generation)
                && ((forall i :: faults(i) != Lost) ==>
                      SoundRun(s, trace, false)
                      && (config.current != old(config.current) ==>
                          r.Disabled? || (r == DisableUnavailable && !switchesOff)))
    {
      hide *;
      trace := [];
      if closed {
        return DisableUnavailable, trace;
      }
      if mutationInFlight {
        return DisableBusy, trace;
      }
      mutationInFlight := true;
      r, trace := DisableCurrent(expected, switchesOff, cancelled, faults, s);
      mutationInFlight := false;
      if forall i :: faults(i) != Lost {
        CarefulCallIsSound(VoiceOwner, s, faults, trace, ledger.entries, vault.secrets, config.current);
      }
    }
  }

  // -------------------------------------------------------------------------
  // Lists of staged credentials
  // -------------------------------------------------------------------------

  function Elements(ls: seq<Locator>): set<Locator> {
    set l | l in ls
  }

  predicate Distinct(ls: seq<Locator>) {
    forall i, j :: 0 <= i < j < |ls| ==> ls[i] != ls[j]
  }

  lemma NoElements()
    ensures Elements([]) == {} && Distinct([])
  {}

  lemma Appended(ls: seq<Locator>, l: Locator)
    ensures Elements(ls + [l]) == Elements(ls) + {l}
    ensures Distinct(ls) && l !in Elements(ls) ==> Distinct(ls + [l])
  {}

  lemma RemainingElements(ls: seq<Locator>)
    ensures RecoveryPass.Remaining(ls, 0) == Elements(ls) && RecoveryPass.Remaining(ls, |ls|) == {}
  {}

  lemma RemainingOne(ls: seq<Locator>, i: nat)
    requires i < |ls| && Distinct(ls)
    ensures var left, rest := RecoveryPass.Remaining(ls, i), RecoveryPass.Remaining(ls, i + 1);
            ls[i] in left && left - {ls[i]} == rest && rest <= left
    ensures ls[i] in Elements(ls)
  {
    RecoveryPass.RemainingStep(ls, i);
  }

  lemma NeverLost(faults: nat -> Fault)
    requires NoFault(faults)
    ensures forall i: nat :: faults(i) != Lost
  {}

  lemma NewPart(o: Owner, es: seq<Entry>, refs: set<Locator>, part: set<Locator>)
    requires NewTo(o, es, refs) && part <= refs
    ensures NewTo(o, es, part)
  {}

  lemma Removed(vs0: set<Locator>, vs: set<Locator>, part: set<Locator>, refs: set<Locator>)
    requires vs0 <= vs <= vs0 + part && part <= refs && refs !! vs0
    ensures vs - part == vs0
  {}

  lemma NewTracks(o: Owner, es: seq<Entry>, refs: set<Locator>, l: Locator)
    requires NewTo(o, es, refs) && l in refs
    ensures forall x :: x in refs && x != l ==> x.Track() != l.Track()
  {}

  lemma GenerationIs(c: Configuration)
    ensures c.generation >= 0
  {}

  lemma NewAt(o: Owner, es: seq<Entry>, refs: set<Locator>, l: Locator)
    requires NewTo(o, es, refs) && l in refs
    ensures l !in View(es) && ValidReference(o, l)
  {}

  // -------------------------------------------------------------------------
  // When a change goes through
  // -------------------------------------------------------------------------

  predicate Stale(config: Option<Configuration>, expected: int) {
    config.None? || config.value.generation != expected
  }

  function ReasonOf(p: Probe): string {
    if p.Failed? then p.reason else ""
  }

  /** What may stand in the way of one track, in the order in which it is met without
      faults, when the ledger has `size` entries. */
  function TrackObstacles(credential: Option<Locator>, answer: TrackAnswers, cancelled: nat -> bool, i: nat,
                          size: nat): seq<Obstacle> {
    [ Obstacle(cancelled(4 + 3 * i), Cancelled),
      Obstacle(answer.preparation.Failed?, ProbeFailed(ReasonOf(answer.preparation))),
      Obstacle(credential.Some? && size >= MAX_ENTRIES, Outcome.Unavailable)]
    + [ Obstacle(credential.Some? && cancelled(5 + 3 * i), Cancelled),
        Obstacle(cancelled(6 + 3 * i), Cancelled),
        Obstacle(answer.probe.Failed?, ProbeFailed(ReasonOf(answer.probe)))]
  }

  function StageObstacles(v: VoiceConfig, answers: Answers, cancelled: nat -> bool, size: nat): seq<Obstacle> {
    TrackObstacles(v.asr.credential, answers.asr, cancelled, 0, size)
    + TrackObstacles(v.tts.credential, answers.tts, cancelled, 1, if v.asr.credential.Some? then size + 1 else size)
  }

  /** From the start of the candidate runtime on. */
  function CommitObstacles(answers: Answers, cancelled: nat -> bool): seq<Obstacle> {
    [ Obstacle(cancelled(10), Cancelled),
      Obstacle(!answers.starts, Outcome.Unavailable),
      Obstacle(!answers.activates && !answers.shutdown, Outcome.Unavailable)]
  }

  function ChangeObstacles(c: Configuration, es: seq<Entry>, v: VoiceConfig, answers: Answers, cancelled: nat -> bool)
    : seq<Obstacle> {
    var adopted := AdoptAll(es, Startup.ManagedOwners(Some(c), VoiceOwner), c.generation);
    [ Obstacle(adopted.Err?, Outcome.Unavailable),
      Obstacle(cancelled(1) || cancelled(2) || cancelled(3), Cancelled),
      Obstacle(!answers.asr.resolves || !answers.tts.resolves, Outcome.Unavailable)]
    + (StageObstacles(v, answers, cancelled, if adopted.Ok? then |adopted.entries| else 0)
       + CommitObstacles(answers, cancelled))
  }

  /** The answer of a whole call that meets no fault. */
  function Answered(config: Option<Configuration>, es: seq<Entry>, expected: int, v: VoiceConfig, answers: Answers,
                    cancelled: nat -> bool): Outcome {
    var entry := [Obstacle(cancelled(0), Cancelled), Obstacle(Stale(config, expected), Conflicting)];
    var rest := if Stale(config, expected) then [] else ChangeObstacles(config.value, es, v, answers, cancelled);
    AnswerOf(entry + rest, Configured(expected + 1))
  }

  lemma TrackAnswerIs(credential: Option<Locator>, answer: TrackAnswers, cancelled: nat -> bool, i: nat, size: nat)
    ensures First(TrackObstacles(credential, answer, cancelled, i, size)) ==
            if cancelled(4 + 3 * i) then Some(Cancelled)
            else if answer.preparation.Failed? then Some(ProbeFailed(answer.preparation.reason))
            else if credential.Some? && size >= MAX_ENTRIES then Some(Outcome.Unavailable)
            else if (credential.Some? && cancelled(5 + 3 * i)) || cancelled(6 + 3 * i) then Some(Cancelled)
            else if answer.probe.Failed? then Some(ProbeFailed(answer.probe.reason))
            else None
  {
    hide First;
    var a := Obstacle(cancelled(4 + 3 * i), Cancelled);
    var b := Obstacle(answer.preparation.Failed?, ProbeFailed(ReasonOf(answer.preparation)));
    var c := Obstacle(credential.Some? && size >= MAX_ENTRIES, Outcome.Unavailable);
    var d := Obstacle(credential.Some? && cancelled(5 + 3 * i), Cancelled);
    var e, f := Obstacle(cancelled(6 + 3 * i), Cancelled),
        Obstacle(answer.probe.Failed?, ProbeFailed(ReasonOf(answer.probe)));
    FirstOf(f, []);
    FirstOfThree(d, e, f, []);
    FirstOfThree(a, b, c, [d, e, f]);
    assert [d, e, f] + [] == [d, e, f];
  }

  lemma StageAnswerIs(v: VoiceConfig, answers: Answers, cancelled: nat -> bool, size: nat)
    ensures var asr := First(TrackObstacles(Tracks(v)[0], answers.asr, cancelled, 0, size));
            First(StageObstacles(v, answers, cancelled, size)) ==
            if asr.Some? then asr
            else First(TrackObstacles(Tracks(v)[1], answers.tts, cancelled, 1,
                                      if Tracks(v)[0].Some? then size + 1 else size))
  {
    FirstOfBoth(TrackObstacles(v.asr.credential, answers.asr, cancelled, 0, size),
                TrackObstacles(v.tts.credential, answers.tts, cancelled, 1,
                               if v.asr.credential.Some? then size + 1 else size));
    hide First, TrackObstacles;
  }

  lemma CommitAnswerIs(answers: Answers, cancelled: nat -> bool)
    ensures First(CommitObstacles(answers, cancelled)) ==
            if cancelled(10) then Some(Cancelled)
            else if !answers.starts || (!answers.activates && !answers.shutdown) then Some(Outcome.Unavailable)
            else None
  {
    var a, b := Obstacle(cancelled(10), Cancelled), Obstacle(!answers.starts, Outcome.Unavailable);
    var c := Obstacle(!answers.activates && !answers.shutdown, Outcome.Unavailable);
    FirstOfThree(a, b, c, []);
    FirstOf(c, []);
    assert [a, b, c] + [] == [a, b, c];
    hide First;
  }

  lemma ChangeAnswerIs(c: Configuration, es: seq<Entry>, v: VoiceConfig, answers: Answers, cancelled: nat -> bool)
    ensures var adopted := AdoptAll(es, Startup.ManagedOwners(Some(c), VoiceOwner), c.generation);
            var size := if adopted.Ok? then |adopted.entries| else 0;
            First(ChangeObstacles(c, es, v, answers, cancelled)) ==
            if adopted.Err? then Some(Outcome.Unavailable)
            else if cancelled(1) || cancelled(2) || cancelled(3) then Some(Cancelled)
            else if !answers.asr.resolves || !answers.tts.resolves then Some(Outcome.Unavailable)
            else First(StageObstacles(v, answers, cancelled, size) + CommitObstacles(answers, cancelled))
  {
    var adopted := AdoptAll(es, Startup.ManagedOwners(Some(c), VoiceOwner), c.generation);
    var stage, commit := StageObstacles(v, answers, cancelled, if adopted.Ok? then |adopted.entries| else 0),
                         CommitObstacles(answers, cancelled);
    hide First, StageObstacles, CommitObstacles, AdoptAll;
    FirstOfThree(Obstacle(adopted.Err?, Outcome.Unavailable),
                 Obstacle(cancelled(1) || cancelled(2) || cancelled(3), Cancelled),
                 Obstacle(!answers.asr.resolves || !answers.tts.resolves, Outcome.Unavailable), stage + commit);
  }

  lemma AnsweredIs(config: Option<Configuration>, es: seq<Entry>, expected: int, v: VoiceConfig, answers: Answers,
                   cancelled: nat -> bool)
    ensures Answered(config, es, expected, v, answers, cancelled) ==
            if cancelled(0) then Cancelled
            else if Stale(config, expected) then Conflicting
            else AnswerOf(ChangeObstacles(config.value, es, v, answers, cancelled), Configured(expected + 1))
  {
    var rest := if Stale(config, expected) then [] else ChangeObstacles(config.value, es, v, answers, cancelled);
    hide First, ChangeObstacles;
    FirstOfTwo(Obstacle(cancelled(0), Cancelled), Obstacle(Stale(config, expected), Conflicting), rest);
    FirstOfTwo(Obstacle(cancelled(0), Cancelled), Obstacle(Stale(config, expected), Conflicting), []);
    FirstOf(Obstacle(cancelled(0), Cancelled), []);
  }

  lemma StaleIs(config: Option<Configuration>, expected: int)
    ensures Stale(config, expected) <==> config.None? || config.value.generation != expected
  {}

  lemma AnswerOfIs(os: seq<Obstacle>, through: Outcome)
    ensures AnswerOf(os, through) == if First(os).Some? then First(os).value else through
  {}

  /** The capability may be removed: neither look at the signal finds it aborted, the
      generation is current and the ledger takes every adoption. */
  predicate Removable(config: Option<Configuration>, es: seq<Entry>, expected: int, cancelled: nat -> bool) {
    && !cancelled(0) && !cancelled(1) && config.Some? && config.value.generation == expected
    && AdoptAll(es, Startup.ManagedOwners(config, VoiceOwner), expected).Ok?
  }

  lemma RemovableIs(config: Option<Configuration>, es: seq<Entry>, expected: int, cancelled: nat -> bool)
    ensures Removable(config, es, expected, cancelled) <==>
              && !cancelled(0) && !cancelled(1) && config.Some? && config.value.generation == expected
              && AdoptAll(es, Startup.ManagedOwners(config, VoiceOwner), expected).Ok?
  {
    hide AdoptAll;
  }

  /** Under any faults, why a track may have failed. */
  predicate Explains(failure: Option<Outcome>, answer: TrackAnswers, cancelled: nat -> bool, i: nat) {
    match failure
    case None => true
    case Some(Cancelled) => cancelled(4 + 3 * i) || cancelled(5 + 3 * i) || cancelled(6 + 3 * i)
    case Some(ProbeFailed(why)) => FailsWith(answer, why)
    case Some(Unavailable) => true
    case _ => false
  }

  /** A check of the track failed with that reason; a write that fails has a reason of its own. */
  predicate FailsWith(answer: TrackAnswers, why: string) {
    answer.preparation == Failed(why)
    || (answer.preparation == Ready && (answer.probe == Failed(why) || why == "unavailable"))
  }

  lemma FailsIs(answer: TrackAnswers)
    ensures answer.preparation.Failed? ==> FailsWith(answer, answer.preparation.reason)
    ensures answer.preparation == Ready ==> FailsWith(answer, "unavailable")
    ensures answer.preparation == Ready && answer.probe.Failed? ==> FailsWith(answer, answer.probe.reason)
  {}

  lemma ExplainsIs(failure: Option<Outcome>, answer: TrackAnswers, cancelled: nat -> bool, i: nat)
    ensures Explains(failure, answer, cancelled, i) <==>
              || failure.None? || failure == Some(Outcome.Unavailable)
              || (failure == Some(Cancelled) && (cancelled(4 + 3 * i) || cancelled(5 + 3 * i) || cancelled(6 + 3 * i)))
              || (failure.Some? && failure.value.ProbeFailed? && FailsWith(answer, failure.value.reason))
  {
    hide FailsWith;
  }

  /** And why a change may. */
  predicate ChangeExplains(r: Outcome, answers: Answers, cancelled: nat -> bool) {
    && (r == Cancelled ==> exists i :: 0 <= i <= 10 && cancelled(i))
    && (r.ProbeFailed? ==> FailsWith(answers.asr, r.reason) || FailsWith(answers.tts, r.reason))
  }

  lemma TracksExplain(failure: Option<Outcome>, answers: Answers, cancelled: nat -> bool, i: nat)
    requires i < 2 && Explains(failure, if i == 0 then answers.asr else answers.tts, cancelled, i) && failure.Some?
    ensures ChangeExplains(failure.value, answers, cancelled) && failure.value != Conflicting
            && !failure.value.Configured?
            && failure.value != Busy
  {
    ExplainsIs(failure, if i == 0 then answers.asr else answers.tts, cancelled, i);
    hide FailsWith, Explains;
  }

  lemma LooksExplain(r: Outcome, answers: Answers, cancelled: nat -> bool)
    requires !r.ProbeFailed?
    requires r == Cancelled ==> cancelled(0) || cancelled(1) || cancelled(2) || cancelled(3) || cancelled(10)
    ensures ChangeExplains(r, answers, cancelled)
  {
    hide FailsWith;
  }

  /** A change is committed when the generation is current, nobody cancels, the ledger takes
      every adoption and both tracks, and the candidate runtime starts. */
  predicate GoesThrough(config: Option<Configuration>, es: seq<Entry>, expected: int, v: VoiceConfig, answers: Answers,
                        cancelled: nat -> bool) {
    && !cancelled(0) && !cancelled(1) && !cancelled(2) && !cancelled(3) && !cancelled(10)
    && config.Some? && config.value.generation == expected
    && answers.asr.resolves && answers.tts.resolves && answers.starts
    && var adopted := AdoptAll(es, Startup.ManagedOwners(config, VoiceOwner), expected);
       adopted.Ok? && Stageable(v, answers, cancelled, |adopted.entries|)
  }

  lemma GoesThroughIs(c: Configuration, es: seq<Entry>, v: VoiceConfig, answers: Answers, cancelled: nat -> bool)
    ensures var adopted := AdoptAll(es, Startup.ManagedOwners(Some(c), VoiceOwner), c.generation);
            GoesThrough(Some(c), es, c.generation, v, answers, cancelled) <==>
              && !cancelled(0) && !cancelled(1) && !cancelled(2) && !cancelled(3) && !cancelled(10)
              && answers.asr.resolves && answers.tts.resolves && answers.starts
              && adopted.Ok? && Stageable(v, answers, cancelled, |adopted.entries|)
  {
    hide Stageable, AdoptAll;
  }

  lemma GoesNowhere(config: Option<Configuration>, es: seq<Entry>, expected: int, v: VoiceConfig, answers: Answers,
                    cancelled: nat -> bool)
    ensures cancelled(0) || config.None? || config.value.generation != expected ==>
            !GoesThrough(config, es, expected, v, answers, cancelled)
  {
    hide Stageable, AdoptAll;
  }

  /** One track is staged when nobody cancels, its checks agree and the ledger, which has
      `size` entries, has room for its credential if it has one. */
  predicate TrackAgrees(credential: Option<Locator>, answer: TrackAnswers, cancelled: nat -> bool, i: nat, size: nat) {
    && !cancelled(4 + 3 * i) && answer.preparation == Ready && answer.probe == Ready && !cancelled(6 + 3 * i)
    && (credential.Some? ==> size < MAX_ENTRIES && !cancelled(5 + 3 * i))
  }

  predicate Stageable(v: VoiceConfig, answers: Answers, cancelled: nat -> bool, size: nat) {
    && TrackAgrees(v.asr.credential, answers.asr, cancelled, 0, size)
    && TrackAgrees(v.tts.credential, answers.tts, cancelled, 1, if v.asr.credential.Some? then size + 1 else size)
  }

  lemma TrackIs(credential: Option<Locator>, answer: TrackAnswers, cancelled: nat -> bool, i: nat, size: nat)
    ensures TrackAgrees(credential, answer, cancelled, i, size) <==>
              && !cancelled(4 + 3 * i) && answer.preparation == Ready && answer.probe == Ready && !cancelled(6 + 3 * i)
              && (credential.Some? ==> size < MAX_ENTRIES && !cancelled(5 + 3 * i))
  {}

  lemma StageableIs(v: VoiceConfig, answers: Answers, cancelled: nat -> bool, size: nat)
    ensures Stageable(v, answers, cancelled, size) <==>
              && TrackAgrees(Tracks(v)[0], answers.asr, cancelled, 0, size)
              && TrackAgrees(Tracks(v)[1], answers.tts, cancelled, 1, if Tracks(v)[0].Some? then size + 1 else size)
  {}

  lemma OptionalIs(credential: Option<Locator>)
    ensures OptionalRef(credential) == if credential.Some? then {credential.value} else {}
  {}
}
