/** What the history fields of the state mean, and what they prove about settings changes. */
module ProtocolHistory {
  import opened Wrappers
  import opened Configurations
  import opened CleanupLedgers
  import opened CredentialProtocol
  import opened ProtocolInvariant
  import opened ProtocolSteps
  import opened ProtocolCommit
  import opened ProtocolAdvance
  import opened ProtocolActions
  import opened ProtocolRecovery
  import opened ProtocolRuns

  // -------------------------------------------------------------------------
  // Which actions make history
  // -------------------------------------------------------------------------

  /** Nothing was committed, handed out or begun, and no change got a new plan. */
  ghost predicate Quiet(s: System, t: System) {
    && t.config == s.config && t.held == s.held && t.issued == s.issued && t.begun == s.begun
    && forall o :: PreCommit(t.Mutation(o)) ==> PreCommit(s.Mutation(o)) && t.Mutation(o).plan == s.Mutation(o).plan
  }

  lemma SweepIsQuiet(s: System, o: Owner, w: Sweep, pick: Locator, f: Fault)
    ensures var t := SweepStep(s, o, w, pick, f).0;
            t == s.(modelLedger := t.modelLedger, voiceLedger := t.voiceLedger, vault := t.vault)
  {
    if w.Cleaning? {
      CleanupIsQuiet(s, o, w.cleanup, f);
    }
    hide CleanupStep;
  }

  lemma CleanupIsQuiet(s: System, o: Owner, c: Cleanup, f: Fault)
    ensures var t := CleanupStep(s, o, c, f).0;
            t == s.(modelLedger := t.modelLedger, voiceLedger := t.voiceLedger, vault := t.vault)
  {}

  lemma ApplyIsQuiet(s: System, o: Owner, r: LedgerResult, f: Fault)
    ensures var t := Apply(s, o, r, f);
            t == s.(modelLedger := t.modelLedger, voiceLedger := t.voiceLedger)
  {}

  lemma MaintainIsQuiet(s: System, id: nat, pick: Locator, f: Fault)
    ensures Quiet(s, DoMaintain(s, id, pick, f))
  {
    if id in s.tasks {
      match s.tasks[id]
      case AwaitDrain(o, replaced, serial) =>
      case Retiring(o, retire) =>
        if pick in retire {
          ApplyIsQuiet(s, o, Retire(o, s.Ledger(o), pick, retire[pick]), f);
        }
      case Sweeping(o, w) => SweepIsQuiet(s, o, w, pick, f);
    }
    hide Apply, SweepStep, CleanupStep;
  }

  lemma ReconcileIsQuiet(s: System, o: Owner, e: Entry, f: Fault)
    ensures Quiet(s, ReconcileEntry(s, o, e, f))
  {
    ReconcileEntryShape(s, o, e, f);
    hide ReconcileEntry;
  }

  lemma RecoverIsQuiet(s: System, o: Owner, stage: Recovery, pick: Locator, f: Fault)
    ensures Quiet(s, DoRecover(s, o, stage, pick, f))
  {
    match stage
    case AdoptOwners(adopt) =>
      AdoptOwnersShape(s, o, adopt, pick, f);
      if s.config.Some? {
        ApplyIsQuiet(s, o, AdoptCommitted(o, s.Ledger(o), pick, s.config.value.generation), f);
      }
      hide Apply, DoRecover;
    case Reconcile(entries) =>
      ReconcileShape(s, o, entries, pick, f);
      if pick in entries {
        ReconcileIsQuiet(s.(boot := Recovering(o, Reconcile(entries - {pick}))), o, entries[pick], f);
      }
      hide ReconcileEntry, DoRecover;
    case RecoverySweep(w) =>
      RecoverySweepShape(s, o, w, pick, f);
      SweepIsQuiet(s, o, w, pick, f);
      hide SweepStep, DoRecover;
  }

  /** The same history fields: only ledgers and the vault may differ. */
  predicate SameBut(s: System, t: System) {
    t == s.(modelLedger := t.modelLedger, voiceLedger := t.voiceLedger, vault := t.vault)
  }

  lemma QuietMove(s: System, x: System, o: Owner, m: Mutation)
    requires SameBut(s, x)
    requires !PreCommit(m) || (PreCommit(s.Mutation(o)) && m.plan == s.Mutation(o).plan)
    ensures Quiet(s, x.WithMutation(o, m)) && Quiet(s, s)
  {}

  lemma EffectsAreQuiet(s: System, o: Owner, r: LedgerResult, c: Cleanup, v: set<Locator>, f: Fault)
    ensures SameBut(s, s) && SameBut(s, Apply(s, o, r, f)) && SameBut(s, CleanupStep(s, o, c, f).0)
            && SameBut(s, s.(vault := v))
  {
    ApplyIsQuiet(s, o, r, f);
    CleanupIsQuiet(s, o, c, f);
    hide Apply, CleanupStep;
  }

  lemma AdvanceIsQuiet(s: System, o: Owner, pick: Locator, f: Fault)
    requires !(s.Mutation(o).Staging? && s.Mutation(o).todo == {})
    ensures Quiet(s, DoAdvance(s, o, pick, f))
  {
    var m := s.Mutation(o);
    NotPreCommit(m);
    QuietMove(s, s, o, Idle);
    hide *;
    match m
    case Idle =>
      IdleStays(s, o, pick, f);
    case Adopting(current, p, adopt) =>
      AdoptingShape(s, o, pick, f);
      var r := AdoptCommitted(o, s.Ledger(o), pick, current.generation);
      EffectsAreQuiet(s, o, r, Rest, {}, f);
      AnyMove(s, s, o, Idle);
      AnyMove(s, s, o, Staging(current, p, PlanRefs(p), {}));
      AnyMove(s, Apply(s, o, r, f), o, m.(adopt := adopt - {pick}));
      AnyMove(s, Apply(s, o, r, f), o, Idle);
    case Staging(current, p, todo, staged) =>
      StagingShape(s, o, pick, f);
      var r := Reserve(o, s.Ledger(o), pick, current.generation);
      EffectsAreQuiet(s, o, r, Rest, {}, f);
      AnyMove(s, Apply(s, o, r, f), o, Writing(current, p, pick, todo - {pick}, staged + {pick}));
      AnyMove(s, Apply(s, o, r, f), o, Abandoning(staged, Rest));
    case Writing(current, p, l, todo, staged) =>
      WritingShape(s, o, pick, f);
      var x := s.(vault := s.vault + {l});
      EffectsAreQuiet(s, o, Err(Malformed), Rest, s.vault + {l}, f);
      AnyMove(s, x, o, Staging(current, p, todo, staged));
      AnyMove(s, x, o, Abandoning(staged, Rest));
      AnyMove(s, s, o, Abandoning(staged, Rest));
    case Marking(current, p, committed, mark, fallback) =>
      MarkingShape(s, o, pick, f);
      var r := MarkCommitted(o, s.Ledger(o), pick, committed - 1, committed);
      var q := AdoptCommitted(o, s.Ledger(o), pick, committed);
      EffectsAreQuiet(s, o, r, Rest, {}, f);
      EffectsAreQuiet(s, o, q, Rest, {}, f);
      forall m' | MarksFewer(m, m')
        ensures Quiet(s, Apply(s, o, r, f).WithMutation(o, m')) && Quiet(s, Apply(s, o, q, f).WithMutation(o, m'))
      {
        MarksAfter(m, m');
        AnyMove(s, Apply(s, o, r, f), o, m');
        AnyMove(s, Apply(s, o, q, f), o, m');
      }
    case Abandoning(abandon, c) =>
      AbandoningShape(s, o, pick, f);
      var r := AbandonStaged(o, s.Ledger(o), pick);
      EffectsAreQuiet(s, o, r, c, {}, f);
      AnyMove(s, s, o, Idle);
      AnyMove(s, CleanupStep(s, o, c, f).0, o, Abandoning(abandon, CleanupStep(s, o, c, f).1));
      AnyMove(s, Apply(s, o, r, f), o, Abandoning(abandon - {pick}, if Succeeds(r, f) then Due(pick) else Rest));
  }

  lemma MarksAfter(m: Mutation, m': Mutation)
    requires MarksFewer(m, m')
    ensures m'.Marking?
  {}

  /** QuietMove, with its guard on the constructors only. */
  lemma AnyMove(s: System, x: System, o: Owner, m: Mutation)
    requires SameBut(s, x)
    requires m.Adopting? || m.Staging? || m.Writing? ==>
               var w := s.Mutation(o); (w.Adopting? || w.Staging? || w.Writing?) && m.plan == w.plan
    ensures Quiet(s, x.WithMutation(o, m))
  {
    QuietMove(s, x, o, m);
  }

  lemma AdvanceHistory(s: System, o: Owner, pick: Locator, f: Fault)
    ensures var t, m := DoAdvance(s, o, pick, f), s.Mutation(o);
            || Quiet(s, t)
            || (m.Staging? && m.todo == {} && exists n, m' :: !PreCommit(m') && t == Landed(s, n, o, m')
                                                              && CommitPlan(s.config, m.current.generation,
                                                                            m.plan) == Committed(n))
  {
    hide *;
    var t, m := DoAdvance(s, o, pick, f), s.Mutation(o);
    if m.Staging? && m.todo == {} {
      StagingShape(s, o, pick, f);
      CommitOutcome(s, o, m, f);
      var r := CommitPlan(s.config, m.current.generation, m.plan);
      if r.Committed? && f != Refused {
        var m' := if f == Done then Marking(m.current, m.plan, r.configuration.generation, PlanRefs(m.plan), {})
            else Abandoning(m.staged, Rest);
        NotPreCommit(m');
        assert !PreCommit(m') && t == Landed(s, r.configuration, o, m');
      } else {
        EffectsAreQuiet(s, o, Err(Malformed), Rest, {}, f);
        AnyMove(s, s, o, Abandoning(m.staged, Rest));
      }
    } else {
      AdvanceIsQuiet(s, o, pick, f);
    }
  }

  /** The commit of a settings change, as a change of state. */
  ghost predicate Lands(s: System, t: System) {
    exists o, n, m' ::
      && s.Mutation(o).Staging? && s.Mutation(o).todo == {} && !PreCommit(m') && t == Landed(s, n, o, m')
      && CommitPlan(s.config, s.Mutation(o).current.generation, s.Mutation(o).plan) == Committed(n)
  }

  /** Everything that can happen in one action, as far as history is concerned. */
  lemma StepHistory(s: System, a: Action)
    ensures var t := Step(s, a);
            || Quiet(s, t)
            || (a.Begin? && Begins(s, a.owner, a.expected, a.plan) && t == DoBegin(s, a.owner, a.expected, a.plan))
            || (s.config.None? && exists n :: ValidConfiguration(n) && n.generation == 1 && AllRefs(n) !! s.issued
                                              && t == Installed(s, n))
            || (s.config.Some? && exists n :: ValidConfiguration(n) && n.generation == s.config.value.generation + 1
                                              && SameRefs(s.config.value, n) && t == Recommitted(s, n))
            || Lands(s, t)
  {
    StepShape(s, a);
    QuietMove(s, s, ModelOwner, s.Mutation(ModelOwner));
    match a
    case Install(d, now) => InstallShape(s, d, now);
    case Recommit(d, now) => RecommitShape(s, d, now);
    case Begin(o, e, p) => BeginShape(s, o, e, p);
    case Advance(o, pick, f) =>
      AdvanceHistory(s, o, pick, f);
    case GiveUp(o) =>
      GiveUpShape(s, o);
      AnyMove(s, s, o, Idle);
      if s.Mutation(o).Staging? || s.Mutation(o).Writing? {
        AnyMove(s, s, o, Abandoning(s.Mutation(o).staged, Rest));
      }
    case Mount(o, up) => MountIsQuiet(s, o, up);
    case Maintain(id, pick, f) => MaintainIsQuiet(s, id, pick, f);
    case Recover(pick, f) => if s.boot.Recovering? { RecoverIsQuiet(s, s.boot.owner, s.boot.stage, pick, f); }
    case _ => OthersAreQuiet(s, a);
    hide *;
  }

  lemma MountIsQuiet(s: System, o: Owner, up: bool)
    ensures Quiet(s, DoMount(s, o, up))
  {}

  lemma OthersAreQuiet(s: System, a: Action)
    requires a.Remount? || a.Drain? || a.DropTask? || a.Close? || a.Crash? || a.SkipRecovery?
    ensures Quiet(s, Step(s, a))
  {}

  // -------------------------------------------------------------------------
  // The generation history is the configuration's own past
  // -------------------------------------------------------------------------

  /** History is only extended, and only with the configuration just stored. */
  predicate Recorded(s: System, t: System) {
    && (forall g :: g in s.held ==> g in t.held && t.held[g] == s.held[g])
    && (forall g :: g in t.held && g !in s.held ==> t.config == Some(t.held[g]) && t.held[g].generation == g)
    && (t.config.Some? ==> t.config.value.generation in t.held && t.held[t.config.value.generation] == t.config.value)
  }

  lemma QuietRecorded(s: System, t: System, strict: bool)
    requires ConfigOk(Ctx(s, strict)) && Quiet(s, t)
    ensures Recorded(s, t)
  {}

  lemma LandedRecorded(s: System, t: System, strict: bool)
    requires ConfigOk(Ctx(s, strict)) && Lands(s, t)
    ensures Recorded(s, t)
  {}

  lemma ReplacedRecorded(s: System, t: System, n: Configuration, strict: bool)
    requires ConfigOk(Ctx(s, strict)) && (s.config.Some? ==> n.generation == s.config.value.generation + 1)
    requires t.config == Some(n) && t.held == s.held[n.generation := n]
    ensures Recorded(s, t)
  {}

  lemma WrittenFields(s: System, n: Configuration)
    ensures Installed(s, n).config == Some(n) && Installed(s, n).held == s.held[n.generation := n]
    ensures Recommitted(s, n).config == Some(n) && Recommitted(s, n).held == s.held[n.generation := n]
  {}

  lemma StepRecorded(s: System, strict: bool, a: Action)
    requires Inv(s, strict)
    ensures Recorded(s, Step(s, a))
  {
    hide *;
    var t := Step(s, a);
    PartFacts(s, strict, ModelOwner);
    StepHistory(s, a);
    if Quiet(s, t) {
      QuietRecorded(s, t, strict);
    } else if Lands(s, t) {
      LandedRecorded(s, t, strict);
    } else if a.Begin? && Begins(s, a.owner, a.expected, a.plan) && t == DoBegin(s, a.owner, a.expected, a.plan) {
      BeginFrame(s, a.owner, a.expected, a.plan, strict);
      BeginRecorded(s, a.owner, a.expected, a.plan, strict);
    } else if s.config.None? {
      var n :| ValidConfiguration(n) && n.generation == 1 && AllRefs(n) !! s.issued && t == Installed(s, n);
      WrittenFields(s, n);
      ReplacedRecorded(s, t, n, strict);
    } else {
      var n :| ValidConfiguration(n) && n.generation == s.config.value.generation + 1 && SameRefs(s.config.value, n)
          && t == Recommitted(s, n);
      WrittenFields(s, n);
      ReplacedRecorded(s, t, n, strict);
    }
  }

  lemma BeginRecorded(s: System, o: Owner, expected: int, p: Plan, strict: bool)
    requires ConfigOk(Ctx(s, strict)) && Begins(s, o, expected, p)
    ensures Recorded(s, DoBegin(s, o, expected, p))
  {}

  /** The state after the first `i` actions of a run. */
  function At(actions: seq<Action>, i: nat): System
    requires i <= |actions|
  {
    Exec(Initial, actions[..i])
  }

  lemma {:induction false} ExecSplit(s: System, before: seq<Action>, after: seq<Action>)
    ensures Exec(s, before + after) == Exec(Exec(s, before), after)
    decreases |before|
  {
    hide Step;
    if before == [] {
      assert before + after == after;
    } else {
      assert (before + after)[1..] == before[1..] + after;
      ExecSplit(Step(s, before[0]), before[1..], after);
    }
  }

  lemma {:induction false} SoundSplit(s: System, before: seq<Action>, after: seq<Action>, strict: bool)
    ensures SoundRun(s, before + after, strict) <==>
            SoundRun(s, before, strict) && SoundRun(Exec(s, before), after, strict)
    decreases |before|
  {
    hide Step, Sound;
    if before == [] {
      assert before + after == after;
    } else {
      assert (before + after)[1..] == before[1..] + after;
      SoundSplit(Step(s, before[0]), before[1..], after, strict);
    }
  }

  /** One more action of a sound run. */
  lemma RunStep(actions: seq<Action>, strict: bool, i: nat)
    requires SoundRun(Initial, actions, strict) && i < |actions|
    ensures At(actions, i + 1) == Step(At(actions, i), actions[i]) && Inv(At(actions, i), strict)
            && Sound(At(actions, i), actions[i], strict)
    ensures actions == actions[..i] + actions[i..]
  {
    assert actions[..i + 1] == actions[..i] + [actions[i]];
    assert actions == actions[..i] + actions[i..];
    assert actions[i..][0] == actions[i];
    ExecSplit(Initial, actions[..i], [actions[i]]);
    SoundSplit(Initial, actions[..i], actions[i..], strict);
    InitialOk(strict);
    RunKeeps(Initial, strict, actions[..i]);
    hide Inv, Step, Sound;
  }

  /** `c` was the durable configuration at some moment of the first `n` actions. */
  ghost predicate WasDurable(actions: seq<Action>, n: nat, c: Configuration)
    requires n <= |actions|
  {
    exists i :: 0 <= i <= n && At(actions, i).config == Some(c)
  }

  /** The history field is exactly the sequence of configurations that were durable at
      some moment of the run, each under its own generation. */
  lemma {:induction false} HistoryIsThePast(actions: seq<Action>, strict: bool, n: nat, c: Configuration)
    requires SoundRun(Initial, actions, strict) && n <= |actions|
    ensures WasDurable(actions, n, c) <==>
            (c.generation in At(actions, n).held && At(actions, n).held[c.generation] == c)
  {
    if n == 0 {
      assert actions[..0] == [];
      assert At(actions, 0) == Initial;
    } else {
      HistoryIsThePast(actions, strict, n - 1, c);
      RunStep(actions, strict, n - 1);
      StepRecorded(At(actions, n - 1), strict, actions[n - 1]);
      assert Recorded(At(actions, n - 1), At(actions, n));
      hide At, Inv, Step, Sound;
    }
  }

  // -------------------------------------------------------------------------
  // A change lands whole or not at all
  // -------------------------------------------------------------------------

  /** The configuration owns every candidate of the change, or none. */
  predicate AllOrNone(p: Plan, c: Configuration) {
    PlanRefs(p) <= Refs(c, PlanOwner(p)) || PlanRefs(p) !! AllRefs(c)
  }

  ghost predicate PlansApart(begun: set<Plan>, issued: set<Locator>) {
    && (forall p :: p in begun ==> ValidPlan(p) && PlanRefs(p) <= issued)
    && (forall p, q :: p in begun && q in begun ==> PlanRefs(p) == PlanRefs(q) || PlanRefs(p) !! PlanRefs(q))
  }

  ghost predicate HeldWhole(begun: set<Plan>, held: map<int, Configuration>) {
    forall p, g :: p in begun && g in held ==> AllOrNone(p, held[g])
  }

  ghost predicate OwnBegun(s: System) {
    forall o :: PreCommit(s.Mutation(o)) ==> s.Mutation(o).plan in s.begun && PlanOwner(s.Mutation(o).plan) == o
  }

  ghost predicate HeldIssued(held: map<int, Configuration>, issued: set<Locator>) {
    forall g :: g in held ==> AllRefs(held[g]) <= issued
  }

  ghost predicate BegunOk(s: System) {
    PlansApart(s.begun, s.issued) && HeldWhole(s.begun, s.held) && OwnBegun(s) && HeldIssued(s.held, s.issued)
  }

  lemma QuietBegun(s: System, t: System)
    requires BegunOk(s) && Quiet(s, t)
    ensures BegunOk(t)
  {}

  lemma FreshConfigHeld(s: System, c: Configuration, g: int)
    requires PlansApart(s.begun, s.issued) && HeldWhole(s.begun, s.held) && AllRefs(c) !! s.issued
    ensures HeldWhole(s.begun, s.held[g := c])
  {}

  lemma SameRefsHeld(begun: set<Plan>, held: map<int, Configuration>, c: Configuration, n: Configuration, g: int)
    requires HeldWhole(begun, held) && c.generation in held && held[c.generation] == c && SameRefs(c, n)
    ensures HeldWhole(begun, held[g := n])
    ensures AllRefs(n) == AllRefs(c)
  {
    forall p | p in begun
      ensures AllOrNone(p, n)
    {
      assert AllOrNone(p, c);
      assert PlanOwner(p) == ModelOwner || PlanOwner(p) == VoiceOwner;
    }
  }

  /** The committed plan against every plan ever begun. */
  lemma LandedHeld(begun: set<Plan>, issued: set<Locator>, held: map<int, Configuration>, c: Configuration,
                   n: Configuration, p: Plan)
    requires PlansApart(begun, issued) && HeldWhole(begun, held) && p in begun
    requires ValidConfiguration(c) && c.generation in held && held[c.generation] == c
    requires Refs(n, PlanOwner(p)) == PlanRefs(p) && Refs(n, Other(PlanOwner(p))) == Refs(c, Other(PlanOwner(p)))
    ensures HeldWhole(begun, held[n.generation := n])
    ensures HeldIssued(held, issued) ==> AllRefs(n) <= issued
  {
    RefsFollowTracks(c);
    PlanRefsFollowOwner(p);
    forall q | q in begun
      ensures AllOrNone(q, n)
    {
      PlanRefsFollowOwner(q);
      assert AllOrNone(q, c);
    }
  }

  lemma BeginBegun(s: System, o: Owner, expected: int, p: Plan, strict: bool)
    requires BegunOk(s) && Begins(s, o, expected, p)
    ensures BegunOk(DoBegin(s, o, expected, p))
  {
    var t := DoBegin(s, o, expected, p);
    assert forall q, g :: q in t.begun && g in t.held && q !in s.begun ==> PlanRefs(q) !! AllRefs(t.held[g]);
    assert HeldWhole(t.begun, t.held);
    assert forall x :: x != o ==> t.Mutation(x) == s.Mutation(x);
  }

  lemma ReplacedBegun(s: System, t: System, n: Configuration)
    requires BegunOk(s) && (t == Installed(s, n) || (t == Recommitted(s, n) && AllRefs(n) <= s.issued))
             && HeldWhole(s.begun, t.held)
    ensures BegunOk(t)
  {
    assert forall o :: t.Mutation(o) == s.Mutation(o);
  }

  lemma LandsBegun(s: System, t: System, strict: bool)
    requires Inv(s, strict) && BegunOk(s) && Lands(s, t)
    ensures BegunOk(t)
  {
    var o, n, m' :| s.Mutation(o).Staging? && s.Mutation(o).todo == {} && !PreCommit(m') && t == Landed(s, n, o, m')
                    && CommitPlan(s.config, s.Mutation(o).current.generation, s.Mutation(o).plan) == Committed(n);
    var m := s.Mutation(o);
    NotPreCommit(m);
    assert HeldIssued(s.held, s.issued);
    assert PreCommit(m) && m.plan in s.begun && PlanOwner(m.plan) == o;
    PartFacts(s, strict, o);
    CommittedShape(s, strict, m.plan, m.current.generation, n);
    LandedHeld(s.begun, s.issued, s.held, s.config.value, n, m.plan);
    LandedBegun(s, n, o, m');
    hide *;
  }

  lemma CommittedShape(s: System, strict: bool, p: Plan, expected: int, n: Configuration)
    requires ConfigOk(Ctx(s, strict)) && ValidPlan(p) && CommitPlan(s.config, expected, p) == Committed(n)
    ensures s.config.Some? && ValidConfiguration(s.config.value) && s.config.value.generation in s.held
            && s.held[s.config.value.generation] == s.config.value
    ensures Refs(n, PlanOwner(p)) == PlanRefs(p)
            && Refs(n, Other(PlanOwner(p))) == Refs(s.config.value, Other(PlanOwner(p)))
  {
    CommitShape(s.config.value, expected, p);
  }

  lemma LandedBegun(s: System, n: Configuration, o: Owner, m: Mutation)
    requires BegunOk(s) && !PreCommit(m) && HeldWhole(s.begun, s.held[n.generation := n]) && AllRefs(n) <= s.issued
    ensures BegunOk(Landed(s, n, o, m))
  {
    assert forall x :: x != o ==> Landed(s, n, o, m).Mutation(x) == s.Mutation(x);
  }

  lemma StepBegun(s: System, strict: bool, a: Action)
    requires Inv(s, strict) && BegunOk(s)
    ensures BegunOk(Step(s, a))
  {
    hide *;
    var t := Step(s, a);
    PartFacts(s, strict, ModelOwner);
    BegunParts(s, strict);
    StepHistory(s, a);
    if Quiet(s, t) {
      QuietBegun(s, t);
    } else if Lands(s, t) {
      LandsBegun(s, t, strict);
    } else if a.Begin? && Begins(s, a.owner, a.expected, a.plan) && t == DoBegin(s, a.owner, a.expected, a.plan) {
      BeginBegun(s, a.owner, a.expected, a.plan, strict);
    } else if s.config.None? {
      var n :| ValidConfiguration(n) && n.generation == 1 && AllRefs(n) !! s.issued && t == Installed(s, n);
      WrittenFields(s, n);
      FreshConfigHeld(s, n, n.generation);
      ReplacedBegun(s, t, n);
    } else {
      var n :| ValidConfiguration(n) && n.generation == s.config.value.generation + 1 && SameRefs(s.config.value, n)
          && t == Recommitted(s, n);
      WrittenFields(s, n);
      SameRefsHeld(s.begun, s.held, s.config.value, n, n.generation);
      ReplacedBegun(s, t, n);
    }
  }

  lemma BegunParts(s: System, strict: bool)
    requires BegunOk(s) && ConfigOk(Ctx(s, strict))
    ensures PlansApart(s.begun, s.issued) && HeldWhole(s.begun, s.held)
    ensures s.config.Some? ==>
            && s.config.value.generation in s.held && s.held[s.config.value.generation] == s.config.value
                               && AllRefs(s.config.value) <= s.issued
  {}

  lemma {:induction false} RunBegun(actions: seq<Action>, strict: bool, n: nat)
    requires SoundRun(Initial, actions, strict) && n <= |actions|
    ensures BegunOk(At(actions, n))
  {
    if n == 0 {
      assert actions[..0] == [];
    } else {
      RunBegun(actions, strict, n - 1);
      RunStep(actions, strict, n - 1);
      StepBegun(At(actions, n - 1), strict, actions[n - 1]);
      hide BegunOk, Step, Inv, Sound, At;
    }
  }

  lemma {:induction false} BegunStays(actions: seq<Action>, strict: bool, i: nat, n: nat)
    requires SoundRun(Initial, actions, strict) && i <= n <= |actions|
    ensures At(actions, i).begun <= At(actions, n).begun
    decreases n
  {
    if i < n {
      BegunStays(actions, strict, i, n - 1);
      RunStep(actions, strict, n - 1);
      BegunGrows(At(actions, n - 1), actions[n - 1]);
      hide BegunOk, Step, Inv, Sound, At;
    }
  }

  lemma BegunGrows(s: System, a: Action)
    ensures s.begun <= Step(s, a).begun
  {
    StepHistory(s, a);
    hide Step;
  }

  /** A settings change is all or nothing: whatever happens after it began - failing
      writes, cancellation, conflicting commits, crashes, a failed mount after the commit -
      every configuration that is ever durable names all its new credentials or none, and
      as long as it names none, whatever of them is in the vault is ledgered. */
  lemma ChangeIsAllOrNothing(actions: seq<Action>, strict: bool, i: nat, n: nat)
    requires SoundRun(Initial, actions, strict) && i < n <= |actions|
    requires actions[i].Begin? && At(actions, i).boot == Serving
             && Begins(At(actions, i), actions[i].owner, actions[i].expected, actions[i].plan)
    ensures var p, s := actions[i].plan, At(actions, n);
            && (s.config.Some? ==> AllOrNone(p, s.config.value))
            && (forall l :: l in PlanRefs(p) && l in s.vault ==>
                Named(Ctx(s, false), l) || l in View(s.Ledger(PlanOwner(p))))
  {
    var p, s := actions[i].plan, At(actions, n);
    RunStep(actions, strict, i);
    BeginIsRecorded(At(actions, i), actions[i]);
    BegunStays(actions, strict, i + 1, n);
    RunBegun(actions, strict, n);
    InitialOk(strict);
    RunPrefix(actions, strict, n);
    RunKeeps(Initial, strict, actions[..n]);
    assert p in s.begun;
    BegunConsequence(s, strict, p);
    hide *;
  }

  lemma RunPrefix(actions: seq<Action>, strict: bool, n: nat)
    requires SoundRun(Initial, actions, strict) && n <= |actions|
    ensures SoundRun(Initial, actions[..n], strict)
  {
    assert actions == actions[..n] + actions[n..];
    SoundSplit(Initial, actions[..n], actions[n..], strict);
    hide Step, Sound;
  }

  lemma BeginIsRecorded(s: System, a: Action)
    requires a.Begin? && s.boot == Serving && Begins(s, a.owner, a.expected, a.plan)
    ensures a.plan in Step(s, a).begun
  {
    BeginShape(s, a.owner, a.expected, a.plan);
  }

  lemma BegunConsequence(s: System, strict: bool, p: Plan)
    requires Inv(s, strict) && BegunOk(s) && p in s.begun
    ensures s.config.Some? ==> AllOrNone(p, s.config.value)
    ensures forall l :: l in PlanRefs(p) && l in s.vault ==>
            Named(Ctx(s, false), l) || l in View(s.Ledger(PlanOwner(p)))
  {
    BegunParts(s, strict);
    PlanRefsFollowOwner(p);
    forall l | l in PlanRefs(p) && l in s.vault
      ensures Named(Ctx(s, false), l) || l in View(s.Ledger(PlanOwner(p)))
    {
      assert Accounted(s, l);
    }
    hide AllOrNone;
  }
}
