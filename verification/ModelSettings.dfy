/** The operational model settings, on the stores they write in place: one configure call
    is a run of the protocol, effect by effect, and its answer says what became durable. */
module ModelSettings {
  import opened Wrappers
  import opened Configurations
  import opened CleanupLedgers
  import opened CredentialProtocol
  import opened CredentialStores
  import opened ProtocolInvariant
  import opened ProtocolHistory
  import opened SettingsRuns
  import RecoveryPass

  /** What the collaborators answer: the stored key to reuse, the input check, staging, the
      live probe, the resolver's preparation, whether it has a model at all, and whether
      the product was closed and the call cancelled by the time the commit was recorded. */
  datatype Answers = Answers(keyAvailable: bool, preparation: Probe, stages: bool, probe: Probe, prepares: bool,
                             ready: bool, shutdown: bool)

  datatype Status = Active | Degraded | Retrying | Switching

  function StatusOf(ready: bool): Status {
    if ready then Status.Active else Degraded
  }

  /** When a change goes through: the generation is current, nobody cancels, every
      collaborator agrees, and the ledger takes the adoption and has room for the candidate. */
  predicate GoesThrough(config: Option<Configuration>, es: seq<Entry>, expected: int, answers: Answers,
                        cancelled: nat -> bool) {
    && !cancelled(0) && !cancelled(1) && Agrees(answers, cancelled)
    && config.Some? && config.value.generation == expected
    && answers.keyAvailable && answers.preparation == Ready && answers.stages
    && var own := config.value.draft.model.credential;
       if own.managed then var r := AdoptCommitted(ModelOwner, es, own, expected); r.Ok? && |r.entries| < MAX_ENTRIES
       else |es| < MAX_ENTRIES
  }

  // -------------------------------------------------------------------------
  // What may stand in the way of a change, in the order in which it is met
  // -------------------------------------------------------------------------

  predicate Stale(config: Option<Configuration>, expected: int) {
    config.None? || config.value.generation != expected
  }

  function ReasonOf(p: Probe): string {
    if p.Failed? then p.reason else ""
  }

  /** From the write of the secret on. */
  function ProbeObstacles(answers: Answers, cancelled: nat -> bool, faults: nat -> Fault): seq<Obstacle> {
    [ Obstacle(cancelled(3), Cancelled),
      Obstacle(faults(2) != Done, ProbeFailed("unavailable")),
      Obstacle(answers.probe.Failed?, ProbeFailed(ReasonOf(answers.probe)))]
    + [ Obstacle(cancelled(4), Cancelled),
        Obstacle(!answers.prepares, Outcome.Unavailable),
        Obstacle(faults(3) != Done, Outcome.Unavailable)]
  }

  /** From the reservation on; `es` is the ledger that it finds. */
  function StageObstacles(es: seq<Entry>, l: Locator, g: int, answers: Answers, cancelled: nat -> bool,
                          faults: nat -> Fault): seq<Obstacle> {
    [ Obstacle(!Succeeds(Reserve(ModelOwner, es, l, g), faults(1)), Outcome.Unavailable),
      Obstacle(cancelled(2), Cancelled)] + ProbeObstacles(answers, cancelled, faults)
  }

  /** The ledger after the adoption of what the configuration names. */
  function AfterAdoption(c: Configuration, es: seq<Entry>, faults: nat -> Fault): seq<Entry> {
    var own := c.draft.model.credential;
    if own.managed then Written(es, AdoptCommitted(ModelOwner, es, own, c.generation), faults(0)) else es
  }

  /** From the adoption on. */
  function ChangeObstacles(c: Configuration, es: seq<Entry>, l: Locator, answers: Answers, cancelled: nat -> bool,
                           faults: nat -> Fault): seq<Obstacle> {
    var own := c.draft.model.credential;
    [ Obstacle(own.managed && !Succeeds(AdoptCommitted(ModelOwner, es, own, c.generation), faults(0)),
               Outcome.Unavailable),
      Obstacle(!answers.keyAvailable, Outcome.Unavailable),
      Obstacle(answers.preparation.Failed?, ProbeFailed(ReasonOf(answers.preparation)))]
    + ([ Obstacle(cancelled(1), Cancelled),
         Obstacle(!answers.stages, Outcome.Unavailable)]
       + StageObstacles(AfterAdoption(c, es, faults), l, c.generation, answers, cancelled, faults))
  }

  /** The answer of a whole call, under any faults. */
  function Answered(config: Option<Configuration>, es: seq<Entry>, l: Locator, expected: int, answers: Answers,
                    cancelled: nat -> bool, faults: nat -> Fault): Outcome {
    var entry := [Obstacle(cancelled(0), Cancelled), Obstacle(Stale(config, expected), Conflicting)];
    var rest := if Stale(config, expected) then []
                else ChangeObstacles(config.value, es, l, answers, cancelled, faults);
    AnswerOf(entry + rest, Configured(expected + 1))
  }

  lemma ProbeAnswerIs(answers: Answers, cancelled: nat -> bool, faults: nat -> Fault)
    ensures First(ProbeObstacles(answers, cancelled, faults)) ==
            if cancelled(3) then Some(Cancelled)
            else if faults(2) != Done then Some(ProbeFailed("unavailable"))
            else if answers.probe.Failed? then Some(ProbeFailed(answers.probe.reason))
            else if cancelled(4) then Some(Cancelled)
            else if !answers.prepares || faults(3) != Done then Some(Outcome.Unavailable)
            else None
  {
    hide First;
    var a, b := Obstacle(cancelled(3), Cancelled), Obstacle(faults(2) != Done, ProbeFailed("unavailable"));
    var c := Obstacle(answers.probe.Failed?, ProbeFailed(ReasonOf(answers.probe)));
    var d, e := Obstacle(cancelled(4), Cancelled), Obstacle(!answers.prepares, Outcome.Unavailable);
    var f := Obstacle(faults(3) != Done, Outcome.Unavailable);
    FirstOf(f, []);
    FirstOfThree(d, e, f, []);
    FirstOfThree(a, b, c, [d, e, f]);
    assert [d, e, f] + [] == [d, e, f];
    assert ProbeObstacles(answers, cancelled, faults) == [a, b, c] + [d, e, f];
  }

  lemma StageAnswerIs(es: seq<Entry>, l: Locator, g: int, answers: Answers, cancelled: nat -> bool,
                      faults: nat -> Fault)
    ensures First(StageObstacles(es, l, g, answers, cancelled, faults)) ==
            if !Succeeds(Reserve(ModelOwner, es, l, g), faults(1)) then Some(Outcome.Unavailable)
            else if cancelled(2) then Some(Cancelled)
            else First(ProbeObstacles(answers, cancelled, faults))
  {
    var probe := ProbeObstacles(answers, cancelled, faults);
    hide First, ProbeObstacles, Reserve;
    var a := Obstacle(!Succeeds(Reserve(ModelOwner, es, l, g), faults(1)), Outcome.Unavailable);
    var b := Obstacle(cancelled(2), Cancelled);
    FirstOfTwo(a, b, probe);
  }

  lemma ChangeAnswerIs(c: Configuration, es: seq<Entry>, l: Locator, answers: Answers, cancelled: nat -> bool,
                       faults: nat -> Fault)
    ensures var own := c.draft.model.credential;
            First(ChangeObstacles(c, es, l, answers, cancelled, faults)) ==
            if (own.managed && !Succeeds(AdoptCommitted(ModelOwner, es, own, c.generation), faults(0)))
               || !answers.keyAvailable then Some(Outcome.Unavailable)
            else if answers.preparation.Failed? then Some(ProbeFailed(answers.preparation.reason))
            else if cancelled(1) then Some(Cancelled)
            else if !answers.stages then Some(Outcome.Unavailable)
            else First(StageObstacles(AfterAdoption(c, es, faults), l, c.generation, answers, cancelled, faults))
  {
    var own := c.draft.model.credential;
    var stage := StageObstacles(AfterAdoption(c, es, faults), l, c.generation, answers, cancelled, faults);
    hide First, StageObstacles, AdoptCommitted, AfterAdoption;
    var o1 := Obstacle(own.managed && !Succeeds(AdoptCommitted(ModelOwner, es, own, c.generation), faults(0)),
                       Outcome.Unavailable);
    var o2 := Obstacle(!answers.keyAvailable, Outcome.Unavailable);
    var o3 := Obstacle(answers.preparation.Failed?, ProbeFailed(ReasonOf(answers.preparation)));
    var o4, o5 := Obstacle(cancelled(1), Cancelled), Obstacle(!answers.stages, Outcome.Unavailable);
    FirstOfTwo(o4, o5, stage);
    FirstOfThree(o1, o2, o3, [o4, o5] + stage);
  }

  lemma AnsweredIs(config: Option<Configuration>, es: seq<Entry>, l: Locator, expected: int, answers: Answers,
                   cancelled: nat -> bool, faults: nat -> Fault)
    ensures Answered(config, es, l, expected, answers, cancelled, faults) ==
            if cancelled(0) then Cancelled
            else if Stale(config, expected) then Conflicting
            else AnswerOf(ChangeObstacles(config.value, es, l, answers, cancelled, faults), Configured(expected + 1))
  {
    var rest := if Stale(config, expected) then []
        else ChangeObstacles(config.value, es, l, answers, cancelled, faults);
    hide First, ChangeObstacles;
    var a, b := Obstacle(cancelled(0), Cancelled), Obstacle(Stale(config, expected), Conflicting);
    FirstOfTwo(a, b, rest);
    FirstOfTwo(a, b, []);
    FirstOf(a, []);
  }

  /** What each answer of a call means, whatever it meets. */
  lemma AnswersExplained(config: Option<Configuration>, es: seq<Entry>, l: Locator, expected: int, answers: Answers,
                         cancelled: nat -> bool, faults: nat -> Fault)
    ensures var r := Answered(config, es, l, expected, answers, cancelled, faults);
            && r != Busy
            && (r == Conflicting <==> !cancelled(0) && Stale(config, expected))
            && (r == Cancelled ==> exists i :: 0 <= i <= 4 && cancelled(i))
            && (r.ProbeFailed? ==>
                  && !Stale(config, expected) && answers.keyAvailable
                  && (|| answers.preparation == Failed(r.reason)
                      || (answers.preparation == Ready && answers.probe == Failed(r.reason))
                      || (answers.preparation == Ready && faults(2) != Done && r.reason == "unavailable")))
            && (r.Configured? ==> r.generation == expected + 1 && !Stale(config, expected))
  {
    AnsweredIs(config, es, l, expected, answers, cancelled, faults);
    if !Stale(config, expected) {
      var c := config.value;
      ChangeAnswerIs(c, es, l, answers, cancelled, faults);
      StageAnswerIs(AfterAdoption(c, es, faults), l, c.generation, answers, cancelled, faults);
      ProbeAnswerIs(answers, cancelled, faults);
    }
    hide First, ChangeObstacles, StageObstacles, ProbeObstacles, Answered, Reserve, AdoptCommitted;
  }

  predicate Agrees(answers: Answers, cancelled: nat -> bool) {
    !cancelled(2) && !cancelled(3) && !cancelled(4) && answers.probe == Ready && answers.prepares
  }

  lemma AgreesIs(answers: Answers, cancelled: nat -> bool)
    ensures Agrees(answers, cancelled) <==>
            !cancelled(2) && !cancelled(3) && !cancelled(4) && answers.probe == Ready && answers.prepares
  {}

  lemma GoesThroughIs(c: Configuration, es: seq<Entry>, answers: Answers, cancelled: nat -> bool)
    ensures var own := c.draft.model.credential;
            var r := AdoptCommitted(ModelOwner, es, own, c.generation);
            GoesThrough(Some(c), es, c.generation, answers, cancelled) <==>
              && !cancelled(0) && !cancelled(1) && Agrees(answers, cancelled)
              && answers.keyAvailable && answers.preparation == Ready && answers.stages
              && (own.managed ==> r.Ok?) && (if own.managed then |r.entries| < MAX_ENTRIES else |es| < MAX_ENTRIES)
  {
    hide Agrees, AdoptCommitted;
  }

  lemma GoesNowhere(config: Option<Configuration>, es: seq<Entry>, expected: int, answers: Answers,
                    cancelled: nat -> bool)
    ensures cancelled(0) || config.None? || config.value.generation != expected ==>
            !GoesThrough(config, es, expected, answers, cancelled)
  {
    hide Agrees, AdoptCommitted;
  }

  lemma PlanIs(candidate: ModelConfig)
    ensures var p := ReplaceModel(candidate);
            PlanOwner(p) == ModelOwner && PlanRefs(p) == {candidate.credential} && !p.DisableVoice?
    ensures ValidModel(candidate, true) && candidate.credential.managed ==> ValidPlan(ReplaceModel(candidate))
    ensures ValidModel(candidate, true) && candidate.credential.managed ==>
            ValidReference(ModelOwner, candidate.credential)
    ensures forall config, e :: CommitPlan(config, e, ReplaceModel(candidate)) == CommitModel(config, e, candidate)
  {}

  /** The credential of the durable configuration that a change may adopt. */
  function OwnCredential(config: Option<Configuration>): set<Locator> {
    if config.Some? then ManagedRefs(config.value, ModelOwner) else {}
  }

  lemma OwnIs(c: Configuration)
    ensures OwnCredential(Some(c)) == ManagedRefs(c, ModelOwner)
    ensures ManagedRefs(c, ModelOwner) == if c.draft.model.credential.managed then {c.draft.model.credential} else {}
    ensures c.generation >= 0
  {}

  /** What the commit call answers and stores. */
  lemma CommitCall(config: Option<Configuration>, c: Configuration, candidate: ModelConfig, f: Fault)
    requires config == Some(c)
    ensures var r := CommitModel(config, c.generation, candidate);
            && (r.Committed? ==> r.configuration.generation == c.generation + 1)
            && (ValidModel(candidate, true) ==> r.Committed?)
            && CommittedConfig(config, c, ReplaceModel(candidate), f) ==
                 (if f == Refused then config else Serve(config, [ModelChange(c.generation, candidate)]))
            && Serve(config,
                     [ModelChange(c.generation, candidate)]) == (if r.Committed? then Some(r.configuration) else config)
  {
    assert [ModelChange(c.generation, candidate)][..0] == [];
  }

  /** With the generation just read, the commit call is neither in conflict nor invalid. */
  lemma CommitCallAnswers(config: Option<Configuration>, c: Configuration, candidate: ModelConfig)
    requires config == Some(c) && ValidModel(candidate, true)
    ensures CommitModel(config, c.generation, candidate).Committed?
  {}

  lemma StaleIs(config: Option<Configuration>, expected: int)
    ensures Stale(config, expected) <==> config.None? || config.value.generation != expected
  {}

  lemma AnswerOfIs(os: seq<Obstacle>, through: Outcome)
    ensures AnswerOf(os, through) == if First(os).Some? then First(os).value else through
  {}

  lemma AfterAdoptionIs(c: Configuration, es: seq<Entry>, faults: nat -> Fault)
    ensures AfterAdoption(c, es, faults) ==
            if c.draft.model.credential.managed
            then Written(es, AdoptCommitted(ModelOwner, es, c.draft.model.credential, c.generation), faults(0)) else es
  {}

  class OperationalModelSettings {
    const config: ConfigStore
    const ledger: LedgerStore
    const vault: Vault
    var closed: bool
    var mutationInFlight: bool
    var status: Status

    constructor (config: ConfigStore, ledger: LedgerStore, vault: Vault, ready: bool)
      ensures this.config == config && this.ledger == ledger && this.vault == vault
      ensures !closed && !mutationInFlight && status == StatusOf(ready)
    {
      this.config, this.ledger, this.vault := config, ledger, vault;
      closed, mutationInFlight, status := false, false, StatusOf(ready);
    }

    /** The failure path of a change: its own staged credential is pending, deleted and
        acknowledged, as far as each of these works. */
    method Abandon(l: Locator, ready: bool, faults: nat -> Fault, n: nat, ghost s: System, ghost before: seq<Action>)
    returns (ghost trace: seq<Action>)
      requires ledger.owner == ModelOwner
      requires Stands(ModelOwner, s, faults, before, Abandoning({l}, Rest), ledger.entries, vault.secrets,
                      config.current)
      modifies this`status, ledger, vault
      ensures Stands(ModelOwner, s, faults, trace, Idle, ledger.entries, vault.secrets, config.current)
      ensures status == StatusOf(ready)
      ensures vault.secrets == old(vault.secrets) || vault.secrets == old(vault.secrets) - {l}
      ensures NoFault(faults) && Abandonable(ModelOwner, old(ledger.entries), l) ==>
                RecoveryPass.Cleaned(old(ledger.entries), ledger.entries, l) && Unique(ledger.entries)
                && vault.secrets == old(vault.secrets) - {l}
    {
      hide *;
      var k;
      k, trace := AbandonOne(ledger, vault, l, faults, n, {l}, {}, config.current, s, before);
      trace := SettleTurn(ModelOwner, s, faults, trace, l, ledger.entries, vault.secrets, config.current);
      status := StatusOf(ready);
    }

    /** One configure call from start to answer. `cancelled(i)` says whether the i-th look
        at the signal finds it aborted, `faults(i)` what the i-th durable effect meets. */
    method ConfigureCandidate(expected: int, candidate: ModelConfig, answers: Answers, cancelled: nat -> bool,
                              faults: nat -> Fault, ghost s: System)
      returns (r: Outcome, ghost trace: seq<Action>)
      requires ledger.owner == ModelOwner
      requires Stands(ModelOwner, s, faults, [], Idle, ledger.entries, vault.secrets, config.current)
      requires ValidModel(candidate, true) && candidate.credential.managed && candidate.credential !in s.issued
      modifies this`status, config, ledger, vault
      ensures Stands(ModelOwner, s, faults, trace, Idle, ledger.entries, vault.secrets, config.current)
      ensures r.Configured? ==>
              config.current.Some?
              && CommitModel(old(config.current), expected, candidate) == Committed(config.current.value)
                                && r.generation == config.current.value.generation == expected + 1
                                && vault.secrets == old(vault.secrets) + {candidate.credential}
      ensures !r.Configured? && (forall i :: faults(i) != Lost) ==> config.current == old(config.current)
      ensures old(config.current).None? || old(config.current).value.generation != expected ==>
                r == (if cancelled(0) then Cancelled else Conflicting) && ledger.entries == old(ledger.entries)
                && vault.secrets == old(vault.secrets)
      ensures r == Answered(old(config.current), old(ledger.entries), candidate.credential, expected, answers,
                            cancelled, faults)
      ensures status == if cancelled(0) || old(config.current).None?
              || old(config.current).value.generation != expected then old(status)
                        else if r.Configured? then (if answers.shutdown then Switching else Status.Active)
                        else if r.ProbeFailed? && answers.preparation.Failed? then Switching
                        else StatusOf(answers.ready)
      ensures NoFault(faults) && Inv(s, false) ==>
                Leaves(old(ledger.entries), ledger.entries, old(vault.secrets), vault.secrets, {candidate.credential},
                       if r.Configured? then Some(r.generation) else None, OwnCredential(old(config.current)))
      ensures NoFault(faults) && Inv(s, false) ==>
                (r.Configured? <==> GoesThrough(old(config.current), old(ledger.entries), expected, answers, cancelled))
    {
      hide *;
      var p, l := ReplaceModel(candidate), candidate.credential;
      PlanIs(candidate);
      ghost var es0, vs0, own := ledger.entries, vault.secrets, OwnCredential(config.current);
      ghost var tidy := NoFault(faults) && Inv(s, false);
      AnsweredIs(config.current, es0, l, expected, answers, cancelled, faults);
      StaleIs(config.current, expected);
      StandsAtStart(ModelOwner, s, faults, es0, vs0, config.current);
      if tidy {
        UnissuedIsNew(ModelOwner, s, {l});
        UntouchedLeaves(ModelOwner, es0, vs0, {l}, own);
        GoesNowhere(config.current, es0, expected, answers, cancelled);
      }
      trace := [];
      var current := config.current;
      if cancelled(0) {
        return Cancelled, trace;
      }
      if current.None? || current.value.generation != expected {
        return Conflicting, trace;
      }
      var c := current.value;
      status := Switching;
      trace := BeginTurn(ModelOwner, s, faults, p, ledger.entries, vault.secrets, config.current);
      OwnIs(c);
      GoesThroughIs(c, es0, answers, cancelled);
      if tidy {
        AdoptedFromItself(es0, c.generation, own);
      }
      var l0 := c.draft.model.credential;
      ChangeAnswerIs(c, es0, l, answers, cancelled, faults);
      AnswerOfIs(ChangeObstacles(c, es0, l, answers, cancelled, faults), Configured(expected + 1));
      AnswerOfIs(StageObstacles(AfterAdoption(c, es0, faults), l, c.generation, answers, cancelled, faults),
                 Configured(expected + 1));
      AfterAdoptionIs(c, es0, faults);
      if l0.managed {
        trace := AdoptTurn(ModelOwner, s, faults, trace, c, p, {l0}, {}, l0, 0, ledger.entries, vault.secrets,
                           config.current);
        if tidy {
          AdoptMoves(ModelOwner, es0, es0, c.generation, own, l0, faults(0));
          FaultIs(faults, 0, AdoptCommitted(ModelOwner, es0, l0, c.generation));
        }
        var ok := ledger.Adopt(l0, c.generation, faults(0));
        if !ok {
          status := StatusOf(answers.ready);
          return Outcome.Unavailable, trace;
        }
      }
      ghost var es1 := ledger.entries;
      if tidy {
        AdoptedKeepsNew(ModelOwner, es0, es1, c.generation, own, {l});
        UntouchedLeaves(ModelOwner, es1, vs0, {l}, {});
        LeavesAfterAdopting(es0, es1, es1, vs0, vs0, c.generation, {l}, None, own);
      }
      if !answers.keyAvailable || answers.preparation.Failed? || cancelled(1) || !answers.stages {
        trace := GiveUpTurn(ModelOwner, s, faults, trace, Adopting(c, p, {}), ledger.entries, vault.secrets,
                            config.current);
        if answers.keyAvailable && answers.preparation.Failed? {
          return ProbeFailed(answers.preparation.reason), trace;
        }
        status := StatusOf(answers.ready);
        r := if answers.keyAvailable && cancelled(1) then Cancelled else Outcome.Unavailable;
        return;
      }
      trace := AdoptedTurn(ModelOwner, s, faults, trace, c, p, l, ledger.entries, vault.secrets, config.current);
      r, trace := StageAndCommit(c, candidate, answers, cancelled, faults, s, trace);
      if tidy {
        LeavesAfterAdopting(es0, es1, ledger.entries, vs0, vault.secrets, c.generation, {l},
                            if r.Configured? then Some(r.generation) else None, own);
      }
    }

    /** Reserve, write and probe, commit, record, swap. */
    method StageAndCommit(c: Configuration, candidate: ModelConfig, answers: Answers, cancelled: nat -> bool,
                          faults: nat -> Fault,
                          ghost s: System, ghost before: seq<Action>)
      returns (r: Outcome, ghost trace: seq<Action>)
      requires ledger.owner == ModelOwner && config.current == Some(c)
      requires ValidModel(candidate, true) && candidate.credential.managed
      requires Stands(ModelOwner, s, faults, before, Staging(c, ReplaceModel(candidate), {candidate.credential}, {}),
                      ledger.entries, vault.secrets, config.current)
      modifies this`status, config, ledger, vault
      ensures Stands(ModelOwner, s, faults, trace, Idle, ledger.entries, vault.secrets, config.current)
      ensures r.Configured? ==>
              config.current.Some?
              && CommitModel(old(config.current), c.generation, candidate) == Committed(config.current.value)
                                && r.generation == config.current.value.generation == c.generation + 1
                                && vault.secrets == old(vault.secrets) + {candidate.credential}
      ensures !r.Configured? && (forall i :: faults(i) != Lost) ==> config.current == old(config.current)
      ensures r == AnswerOf(StageObstacles(old(ledger.entries), candidate.credential, c.generation, answers, cancelled,
                                           faults),
                            Configured(c.generation + 1))
      ensures status == if r.Configured? then (if answers.shutdown then old(status) else Status.Active)
              else StatusOf(answers.ready)
      ensures NoFault(faults) && UpTo(old(ledger.entries), c.generation)
              && NewTo(ModelOwner, old(ledger.entries), {candidate.credential})
              && candidate.credential !in old(vault.secrets) ==>
                && Leaves(old(ledger.entries), ledger.entries, old(vault.secrets), vault.secrets,
                          {candidate.credential},
                          if r.Configured? then Some(r.generation) else None, {})
                && (r.Configured? <==> |old(ledger.entries)| < MAX_ENTRIES && Agrees(answers, cancelled))
    {
      hide *;
      var p, l := ReplaceModel(candidate), candidate.credential;
      PlanIs(candidate);
      OwnIs(c);
      StageAnswerIs(ledger.entries, l, c.generation, answers, cancelled, faults);
      AnswerOfIs(StageObstacles(ledger.entries, l, c.generation, answers, cancelled, faults),
                 Configured(c.generation + 1));
      AnswerOfIs(ProbeObstacles(answers, cancelled, faults), Configured(c.generation + 1));
      AgreesIs(answers, cancelled);
      ghost var es0, vs0, g := ledger.entries, vault.secrets, c.generation;
      ghost var tidy := NoFault(faults) && UpTo(es0, g) && NewTo(ModelOwner, es0, {l}) && l !in vs0;
      ghost var reserved := Reserve(ModelOwner, es0, l, g);
      if tidy {
        NewIs(es0, l);
        MidwayStart(es0, g);
        ReserveMoves(ModelOwner, es0, es0, g, {}, l);
        OneStaged(l);
        FaultIs(faults, 1, reserved);
        UntouchedLeaves(ModelOwner, es0, vs0, {l}, {});
        if reserved.Ok? {
          StagedIsAbandonable(ModelOwner, es0, reserved.entries, g, {l}, {}, l);
        }
      }
      trace := ReserveTurn(ModelOwner, s, faults, before, c, p, {l}, {}, l, 1, {}, {l}, ledger.entries, vault.secrets,
                           config.current);
      var ok := ledger.ReserveEntry(l, c.generation, faults(1));
      if !ok {
        trace := SettleTurn(ModelOwner, s, faults, trace, l, ledger.entries, vault.secrets, config.current);
        status := StatusOf(answers.ready);
        return Outcome.Unavailable, trace;
      }
      if cancelled(2) {
        trace := GiveUpTurn(ModelOwner, s, faults, trace, Writing(c, p, l, {}, {l}), ledger.entries, vault.secrets,
                            config.current);
        trace := Abandon(l, answers.ready, faults, 2, s, trace);
        if tidy {
          NothingLeft(es0, reserved.entries, ledger.entries, vs0, vs0, g, l);
        }
        return Cancelled, trace;
      }
      r, trace := WriteAndCommit(c, candidate, answers, cancelled, faults, s, trace);
      if tidy && !r.Configured? {
        NothingLeft(es0, reserved.entries, ledger.entries, vs0, vs0 + {l}, g, l);
      }
      if tidy && r.Configured? {
        OneMarked(es0, reserved.entries, vs0, g, l);
      }
    }

    /** Write the secret and probe it, prepare the runtime, commit. */
    method WriteAndCommit(c: Configuration, candidate: ModelConfig, answers: Answers, cancelled: nat -> bool,
                          faults: nat -> Fault,
                          ghost s: System, ghost before: seq<Action>)
      returns (r: Outcome, ghost trace: seq<Action>)
      requires ledger.owner == ModelOwner && config.current == Some(c) && ValidModel(candidate, true)
      requires Stands(ModelOwner, s, faults, before,
                      Writing(c, ReplaceModel(candidate), candidate.credential, {}, {candidate.credential}),
                      ledger.entries, vault.secrets, config.current)
      modifies this`status, config, ledger, vault
      ensures Stands(ModelOwner, s, faults, trace, Idle, ledger.entries, vault.secrets, config.current)
      ensures r.Configured? ==>
              config.current.Some?
              && CommitModel(old(config.current), c.generation, candidate) == Committed(config.current.value)
                                && r.generation == config.current.value.generation == c.generation + 1
                                && vault.secrets == old(vault.secrets) + {candidate.credential}
      ensures !r.Configured? && (forall i :: faults(i) != Lost) ==> config.current == old(config.current)
      ensures r == AnswerOf(ProbeObstacles(answers, cancelled, faults), Configured(c.generation + 1))
      ensures status == if r.Configured? then (if answers.shutdown then old(status) else Status.Active)
              else StatusOf(answers.ready)
      ensures NoFault(faults) && !r.Configured?
              && Abandonable(ModelOwner, old(ledger.entries), candidate.credential) ==>
                RecoveryPass.Cleaned(old(ledger.entries), ledger.entries, candidate.credential)
                && Unique(ledger.entries)
                && vault.secrets == old(vault.secrets) + {candidate.credential} - {candidate.credential}
      ensures NoFault(faults) && r.Configured? ==>
                var q := MarkCommitted(ModelOwner, old(ledger.entries), candidate.credential, c.generation,
                                       c.generation + 1);
                q.Ok? ==> ledger.entries == q.entries
      ensures NoFault(faults) ==>
              (r.Configured? <==> !cancelled(3) && !cancelled(4) && answers.probe == Ready && answers.prepares)
    {
      hide *;
      var p, l := ReplaceModel(candidate), candidate.credential;
      ProbeAnswerIs(answers, cancelled, faults);
      AnswerOfIs(ProbeObstacles(answers, cancelled, faults), Configured(c.generation + 1));
      if NoFault(faults) {
        FaultIs(faults, 2, Err(Malformed));
      }
      trace := WriteTurn(ModelOwner, s, faults, before, c, p, l, {}, {l}, 2, ledger.entries, vault.secrets,
                         config.current);
      var ok := vault.Write(l, faults(2));
      if !ok || answers.probe.Failed? || !answers.prepares || cancelled(3) || cancelled(4) {
        if ok {
          trace := GiveUpTurn(ModelOwner, s, faults, trace, Staging(c, p, {}, {l}), ledger.entries, vault.secrets,
                              config.current);
        }
        trace := Abandon(l, answers.ready, faults, 3, s, trace);
        r := if cancelled(3) then Cancelled
             else if !ok then ProbeFailed("unavailable")
             else if answers.probe.Failed? then ProbeFailed(answers.probe.reason)
             else if cancelled(4) then Cancelled else Outcome.Unavailable;
        return;
      }
      r, trace := CommitStaged(c, candidate, answers, faults, s, trace);
    }

    /** Commit what is staged; on an answer or an exception that denies it, abandon. */
    method CommitStaged(c: Configuration, candidate: ModelConfig, answers: Answers, faults: nat -> Fault,
                        ghost s: System, ghost before: seq<Action>)
      returns (r: Outcome, ghost trace: seq<Action>)
      requires ledger.owner == ModelOwner && config.current == Some(c) && ValidModel(candidate, true)
      requires Stands(ModelOwner, s, faults, before, Staging(c, ReplaceModel(candidate), {}, {candidate.credential}),
                      ledger.entries, vault.secrets, config.current)
      modifies this`status, config, ledger, vault
      ensures Stands(ModelOwner, s, faults, trace, Idle, ledger.entries, vault.secrets, config.current)
      ensures r.Configured? ==>
              config.current.Some?
              && CommitModel(old(config.current), c.generation, candidate) == Committed(config.current.value)
                                && r.generation == config.current.value.generation == c.generation + 1
                                && vault.secrets == old(vault.secrets)
      ensures !r.Configured? && (forall i :: faults(i) != Lost) ==> config.current == old(config.current)
      ensures r == if faults(3) == Done then Configured(c.generation + 1) else Outcome.Unavailable
      ensures status == if r.Configured? then (if answers.shutdown then old(status) else Status.Active)
              else StatusOf(answers.ready)
      ensures NoFault(faults) ==>
                var q := MarkCommitted(ModelOwner, old(ledger.entries), candidate.credential, c.generation,
                                       c.generation + 1);
                r.Configured? && (q.Ok? ==> ledger.entries == q.entries)
    {
      hide *;
      var p, l := ReplaceModel(candidate), candidate.credential;
      PlanIs(candidate);
      if NoFault(faults) {
        FaultIs(faults, 3, Err(Malformed));
      }
      trace := CommitTurn(ModelOwner, s, faults, before, c, p, {l}, {l}, l, 3, ledger.entries, vault.secrets,
                          config.current);
      CommitCall(config.current, c, candidate, faults(3));
      CommitCallAnswers(config.current, c, candidate);
      var answer, thrown := config.CommitModelChange(c.generation, candidate, faults(3));
      if !answer.Committed? || thrown {
        trace := Abandon(l, answers.ready, faults, 4, s, trace);
        r := if answer.Conflict? then Conflicting else Outcome.Unavailable;
        return;
      }
      var g := answer.configuration.generation;
      trace := RecordAndSwap(c, candidate, answers.shutdown, faults, s, trace);
      return Configured(g), trace;
    }

    /** Record the commit in the ledger, with the fallback, and swap the runtime. */
    method RecordAndSwap(c: Configuration, candidate: ModelConfig, shutdown: bool, faults: nat -> Fault,
                         ghost s: System, ghost before: seq<Action>)
      returns (ghost trace: seq<Action>)
      requires ledger.owner == ModelOwner
      requires Stands(ModelOwner, s, faults, before,
                      Marking(c, ReplaceModel(candidate), c.generation + 1, {candidate.credential}, {}),
                      ledger.entries, vault.secrets, config.current)
      modifies this`status, ledger
      ensures Stands(ModelOwner, s, faults, trace, Idle, ledger.entries, vault.secrets, config.current)
      ensures status == if shutdown then old(status) else Status.Active
      ensures NoFault(faults) ==>
                var q := MarkCommitted(ModelOwner, old(ledger.entries), candidate.credential, c.generation,
                                       c.generation + 1);
                q.Ok? ==> ledger.entries == q.entries
    {
      hide *;
      var p, l, g := ReplaceModel(candidate), candidate.credential, c.generation + 1;
      ghost var q := MarkCommitted(ModelOwner, ledger.entries, l, c.generation, g);
      if NoFault(faults) {
        FaultIs(faults, 4, q);
      }
      ghost var fallback := if Succeeds(q, faults(4)) then {} else {l};
      trace := MarkTurn(ModelOwner, s, faults, before, c, p, g, {l}, {}, l, 4, fallback, ledger.entries, vault.secrets,
                        config.current);
      var ok := ledger.MarkEntryCommitted(l, c.generation, g, faults(4));
      if !ok {
        trace := FallbackTurn(ModelOwner, s, faults, trace, c, p, g, l, 5, ledger.entries, vault.secrets,
                              config.current);
        ok := ledger.Adopt(l, g, faults(5));
      }
      trace := SwapTurn(ModelOwner, s, faults, trace, c, p, g, !shutdown, ledger.entries, vault.secrets,
                        config.current);
      if !shutdown {
        status := Status.Active;
      }
    }

    /** What a reader is shown: the status settles unless a change or a retry has set it. */
    method Project(ready: bool) returns (shown: Status)
      modifies this`status
      ensures shown == status == if old(status) == Retrying || old(status) == Switching then old(status)
              else StatusOf(ready)
    {
      if status != Retrying && status != Switching {
        status := StatusOf(ready);
      }
      shown := status;
    }

    /** Mounts the configured credential again: no store changes, and the runtime is
        replaced exactly when the call was neither refused, cancelled nor failed. */
    method Retry(prepares: bool, ready: bool, cancelled: nat -> bool, faults: nat -> Fault, ghost idle: bool,
                 ghost s: System, ghost before: seq<Action>)
      returns (shown: Status, ghost trace: seq<Action>)
      requires ledger.owner == ModelOwner
      requires !closed && !mutationInFlight ==>
               Stands(ModelOwner, s, faults, before, Idle, ledger.entries, vault.secrets, config.current)
      modifies this`status, this`mutationInFlight
      ensures mutationInFlight == old(mutationInFlight) && shown == status
      ensures var mounts := !old(closed) && !old(mutationInFlight) && config.current.Some? && !cancelled(0) && prepares
              && !cancelled(1);
              && status == (if mounts then Status.Active else StatusOf(ready))
              && trace == (if mounts then before + [Remount(ModelOwner, idle)] else before)
      ensures !old(closed) && !old(mutationInFlight) ==>
                Stands(ModelOwner, s, faults, trace, Idle, ledger.entries, vault.secrets, config.current)
    {
      hide *;
      trace := before;
      if closed || mutationInFlight {
        status := StatusOf(ready);
        return status, trace;
      }
      status, mutationInFlight := Retrying, true;
      if config.current.None? || cancelled(0) || !prepares || cancelled(1) {
        status := StatusOf(ready);
      } else {
        trace := RemountTurn(ModelOwner, s, faults, trace, idle, ledger.entries, vault.secrets, config.current);
        status := Status.Active;
      }
      mutationInFlight := false;
      shown := status;
    }

    /** The entry point: closed, cancelled and overlapping calls are answered without an
        effect; a call that met no lost write leaves every candidate secret accounted for. */
    method Configure(expected: int, candidate: ModelConfig, answers: Answers, aborted: bool, cancelled: nat -> bool,
                     faults: nat -> Fault, ghost s: System)
      returns (r: Outcome, ghost trace: seq<Action>)
      requires ledger.owner == ModelOwner
      requires !closed && !mutationInFlight ==>
               Stands(ModelOwner, s, faults, [], Idle, ledger.entries, vault.secrets, config.current)
      requires ValidModel(candidate, true) && candidate.credential.managed && candidate.credential !in s.issued
      modifies this`status, this`mutationInFlight, config, ledger, vault
      ensures mutationInFlight == old(mutationInFlight)
      ensures old(closed) || aborted ==> r == Cancelled
      ensures !old(closed) && !aborted && old(mutationInFlight) ==> r == Busy
      ensures r == Busy || old(closed) || aborted ==>
                config.current == old(config.current) && ledger.entries == old(ledger.entries)
                && vault.secrets == old(vault.secrets) && status == old(status)
      ensures !old(closed) && !aborted && !old(mutationInFlight) ==>
                && r == Answered(old(config.current), old(ledger.entries), candidate.credential, expected, answers,
                                 cancelled, faults)
                && (r == Conflicting <==> !cancelled(0) && Stale(old(config.current), expected))
                && (r == Cancelled ==> exists i :: 0 <= i <= 4 && cancelled(i))
                && status == (if cancelled(0) || Stale(old(config.current), expected) then old(status)
                              else if r.Configured? then (if answers.shutdown then Switching else Status.Active)
                              else if r.ProbeFailed? && answers.preparation.Failed? then Switching
                              else StatusOf(answers.ready))
                && Stands(ModelOwner, s, faults, trace, Idle, ledger.entries, vault.secrets, config.current)
                && (r.Configured? ==>
                    config.current.Some?
                    && CommitModel(old(config.current), expected, candidate) == Committed(config.current.value)
                                      && vault.secrets == old(vault.secrets) + {candidate.credential})
                && ((forall i :: faults(i) != Lost) ==>
                      && SoundRun(s, trace, false)
                      && (!r.Configured? ==> config.current == old(config.current))
                      && (Inv(s, false) && candidate.credential in vault.secrets ==>
                            || (config.current.Some? && candidate.credential in AllRefs(config.current.value))
                            || candidate.credential in View(ledger.entries)))
                && (NoFault(faults) && Inv(s, false) ==>
                      Leaves(old(ledger.entries), ledger.entries, old(vault.secrets), vault.secrets,
                             {candidate.credential},
                             if r.Configured? then Some(r.generation) else None, OwnCredential(old(config.current)))
                      && (r.Configured? <==>
                          GoesThrough(old(config.current), old(ledger.entries), expected, answers, cancelled)))
    {
      hide *;
      trace := [];
      if closed || aborted {
        return Cancelled, trace;
      }
      if mutationInFlight {
        return Busy, trace;
      }
      mutationInFlight := true;
      AnswersExplained(config.current, ledger.entries, candidate.credential, expected, answers, cancelled, faults);
      StaleIs(config.current, expected);
      r, trace := ConfigureCandidate(expected, candidate, answers, cancelled, faults, s);
      mutationInFlight := false;
      if forall i :: faults(i) != Lost {
        CarefulCallIsSound(ModelOwner, s, faults, trace, ledger.entries, vault.secrets, config.current);
        OwnReference(candidate);
      }
    }
  }

  lemma OwnReference(candidate: ModelConfig)
    requires ValidModel(candidate, true)
    ensures candidate.credential.Owner() == ModelOwner
  {}

  // The one-credential cases of what a change leaves.

  lemma NewIs(es: seq<Entry>, l: Locator)
    requires NewTo(ModelOwner, es, {l})
    ensures l !in View(es) && ValidReference(ModelOwner, l)
  {}

  lemma OneStaged(l: Locator)
    ensures {} + {l} == {l} && {l} - {l} == {}
  {}

  lemma NothingLeft(es0: seq<Entry>, es: seq<Entry>, es': seq<Entry>, vs0: set<Locator>, vs: set<Locator>, g: int,
                    l: Locator)
    requires Midway(es0, es, g, {l}, {}) && NewTo(ModelOwner, es0, {l}) && l !in vs0 && (vs == vs0 || vs == vs0 + {l})
    requires RecoveryPass.Cleaned(es, es', l) && Unique(es')
    ensures Leaves(es0, es', vs0, vs - {l}, {l}, None, {})
  {
    NewIs(es0, l);
    AbandonMoves(es0, es, es', g, {l}, l);
    OneStaged(l);
    hide *;
    AbandonedLeaves(ModelOwner, es0, es', vs0, g, {l});
    assert vs - {l} == vs0;
  }

  lemma OneMarked(es0: seq<Entry>, es: seq<Entry>, vs0: set<Locator>, g: int, l: Locator)
    requires Midway(es0, es, g, {l}, {}) && ValidReference(ModelOwner, l) && g >= 0
    ensures var r := MarkCommitted(ModelOwner, es, l, g, g + 1);
            r.Ok? && Leaves(es0, r.entries, vs0, vs0 + {l}, {l}, Some(g + 1), {})
  {
    hide *;
    MarkMoves(ModelOwner, es0, es, g, {l}, {}, l);
    OneStaged(l);
    CommittedLeaves(es0, MarkCommitted(ModelOwner, es, l, g, g + 1).entries, vs0, vs0 + {l}, g, {l});
  }
}
