/** Once a settings owner is closed and drained, it has no further effect. */
module ProtocolQuiescence {
  import opened Wrappers
  import opened Configurations
  import opened CleanupLedgers
  import opened CredentialProtocol
  import opened ProtocolInvariant
  import opened ProtocolSteps
  import opened ProtocolCommit
  import opened ProtocolAdvance
  import opened ProtocolActions
  import opened ProtocolRecovery
  import opened ProtocolRuns
  import opened ProtocolHistory

  predicate OthersOnly(tasks: map<nat, Task>, o: Owner) {
    forall id :: id in tasks ==> tasks[id].owner != o
  }

  /** What holds when closeAndDrain has returned: entry is closed, the change in flight has
      settled and so has every owned retirement. */
  predicate Drained(s: System, o: Owner) {
    && o in s.closed && s.Mutation(o) == Idle && s.boot == Serving && s.config.Some?
    && OthersOnly(s.tasks, o)
  }

  function OwnSecrets(s: System, o: Owner): set<Locator> {
    set l | l in s.vault && l.Owner() == o
  }

  /** `t` has everything of owner `o` as `s` has it. */
  predicate SameFor(s: System, t: System, o: Owner) {
    && t.Ledger(o) == s.Ledger(o) && OwnSecrets(t, o) == OwnSecrets(s, o)
    && s.config.Some? && t.config.Some? && Refs(t.config.value, o) == Refs(s.config.value, o)
  }

  /** An effect of the other owner on `s`, seen from owner `o`. */
  ghost predicate Untouched(s: System, x: System, o: Owner) {
    && x.config == s.config && x.Ledger(o) == s.Ledger(o) && x.closed == s.closed && x.boot == s.boot
    && x.Mutation(o) == s.Mutation(o)
    && x.tasks == s.tasks && OwnSecrets(x, o) == OwnSecrets(s, o)
  }

  predicate Rests(s: System, t: System, o: Owner) {
    Drained(t, o) && SameFor(s, t, o)
  }

  lemma MutationRests(s: System, x: System, o: Owner)
    requires Drained(s, o) && Untouched(s, x, o)
    ensures Rests(s, x, o) && forall m :: Rests(s, x.WithMutation(Other(o), m), o)
  {
    assert forall m :: OwnSecrets(x.WithMutation(Other(o), m), o) == OwnSecrets(x, o);
  }

  lemma LedgerRests(s: System, o: Owner, r: LedgerResult, f: Fault)
    requires Drained(s, o)
    ensures Rests(s, s, o) && forall m :: Rests(s, s.WithMutation(Other(o), m), o)
    ensures Rests(s, Apply(s, Other(o), r, f), o)
            && forall m :: Rests(s, Apply(s, Other(o), r, f).WithMutation(Other(o), m), o)
  {
    MutationRests(s, s, o);
    MutationRests(s, Apply(s, Other(o), r, f), o);
    hide Rests;
  }

  lemma StoreRests(s: System, o: Owner, l: Locator)
    requires Drained(s, o) && l.Owner() == Other(o)
    ensures forall m :: Rests(s, s.(vault := s.vault + {l}).WithMutation(Other(o), m), o)
    ensures forall m :: Rests(s, s.WithMutation(Other(o), m), o)
  {
    var x := s.(vault := s.vault + {l});
    assert OwnSecrets(x, o) == OwnSecrets(s, o);
    MutationRests(s, x, o);
    MutationRests(s, s, o);
    hide Rests;
  }

  lemma CleanupRests(s: System, o: Owner, c: Cleanup, f: Fault)
    requires Drained(s, o) && (c != Rest ==> c.l.Owner() == Other(o))
    ensures var x := CleanupStep(s, Other(o), c, f).0;
            Rests(s, x, o) && forall m :: Rests(s, x.WithMutation(Other(o), m), o)
  {
    var x := CleanupStep(s, Other(o), c, f).0;
    assert OwnSecrets(x, o) == OwnSecrets(s, o);
    MutationRests(s, x, o);
    hide Rests;
  }

  lemma AdvanceRests(s: System, o: Owner, pick: Locator, f: Fault)
    requires Inv(s, false) && Drained(s, o)
    ensures Rests(s, DoAdvance(s, Other(o), pick, f), o)
  {
    hide *;
    var x, k := Other(o), Ctx(s, false);
    var m := s.Mutation(x);
    PartFacts(s, false, x);
    LedgerRests(s, o, Err(Malformed), f);
    match m
    case Idle =>
      IdleStays(s, x, pick, f);
    case Adopting(current, p, adopt) =>
      AdoptingShape(s, x, pick, f);
      LedgerRests(s, o, AdoptCommitted(x, s.Ledger(x), pick, current.generation), f);
    case Staging(current, p, todo, staged) =>
      StagingShape(s, x, pick, f);
      if todo == {} {
        CommitRests(s, o, m, f);
      } else {
        LedgerRests(s, o, Reserve(x, s.Ledger(x), pick, current.generation), f);
      }
    case Writing(current, p, w, todo, staged) =>
      WritingShape(s, x, pick, f);
      WritingFacts(k, x, View(s.Ledger(x)), s.vault, m);
      StoreRests(s, o, w);
    case Marking(current, p, committed, mark, fallback) =>
      MarkingShape(s, x, pick, f);
      LedgerRests(s, o, MarkCommitted(x, s.Ledger(x), pick, committed - 1, committed), f);
      LedgerRests(s, o, AdoptCommitted(x, s.Ledger(x), pick, committed), f);
    case Abandoning(abandon, c) =>
      AbandoningShape(s, x, pick, f);
      AbandoningFacts(k, x, View(s.Ledger(x)), s.vault, m);
      CleanupOwner(k, x, s.vault, c);
      LedgerRests(s, o, AbandonStaged(x, s.Ledger(x), pick), f);
      CleanupRests(s, o, c, f);
  }

  lemma CleanupOwner(k: Context, o: Owner, vault: set<Locator>, c: Cleanup)
    requires CleanupOk(k, o, vault, c)
    ensures c != Rest ==> c.l.Owner() == o
  {}

  lemma SweepOwner(k: Context, o: Owner, vault: set<Locator>, w: Sweep)
    requires SweepOk(k, o, vault, w)
    ensures w.Cleaning? && w.cleanup != Rest ==> w.cleanup.l.Owner() == o
  {}

  lemma LandedRests(s: System, o: Owner, n: Configuration, m: Mutation)
    requires Drained(s, o) && Refs(n, o) == Refs(s.config.value, o)
    ensures Rests(s, Landed(s, n, Other(o), m), o)
  {
    assert OwnSecrets(Landed(s, n, Other(o), m), o) == OwnSecrets(s, o);
  }

  lemma OthersOther(o: Owner)
    ensures Other(Other(o)) == o
  {}

  lemma CommitRests(s: System, o: Owner, m: Mutation, f: Fault)
    requires Inv(s, false) && Drained(s, o) && m == s.Mutation(Other(o)) && m.Staging? && m.todo == {}
    ensures Rests(s, DoCommit(s, Other(o), m.current, m.plan, m.staged, f), o)
  {
    ConfigValid(s);
    hide *;
    var x := Other(o);
    OthersOther(o);
    CommitOutcome(s, x, m, f);
    LedgerRests(s, o, Err(Malformed), f);
    PartFacts(s, false, x);
    StagingFacts(Ctx(s, false), x, View(s.Ledger(x)), s.vault, m);
    var r := CommitPlan(s.config, m.current.generation, m.plan);
    if r.Committed? {
      CommitShape(s.config.value, m.current.generation, m.plan);
      LandedRests(s, o, r.configuration, Marking(m.current, m.plan, r.configuration.generation, PlanRefs(m.plan), {}));
      LandedRests(s, o, r.configuration, Abandoning(m.staged, Rest));
    }
  }

  lemma ConfigValid(s: System)
    requires Inv(s, false) && s.config.Some?
    ensures ValidConfiguration(s.config.value)
  {}

  lemma SweepRests(s: System, o: Owner, w: Sweep, pick: Locator, f: Fault)
    requires Drained(s, o) && (w.Cleaning? && w.cleanup != Rest ==> w.cleanup.l.Owner() == Other(o))
    ensures Rests(s, SweepStep(s, Other(o), w, pick, f).0, o)
  {
    MutationRests(s, s, o);
    if w.Cleaning? {
      CleanupRests(s, o, w.cleanup, f);
    }
    hide Rests, CleanupStep;
  }

  /** A change of the other owner's tasks. */
  lemma TasksRest(s: System, x: System, o: Owner, tasks: map<nat, Task>)
    requires Rests(s, x, o) && OthersOnly(tasks, o)
    ensures Rests(s, x.(tasks := tasks), o)
  {
    assert OwnSecrets(x.(tasks := tasks), o) == OwnSecrets(x, o);
  }

  lemma OtherTasks(s: System, o: Owner, id: nat, task: Task)
    requires Drained(s, o) && id in s.tasks && task.owner == s.tasks[id].owner
    ensures s.tasks[id].owner == Other(o)
    ensures OthersOnly(s.tasks[id := task], o) && OthersOnly(s.tasks - {id}, o)
  {}

  lemma MaintainRests(s: System, id: nat, pick: Locator, f: Fault, o: Owner)
    requires Inv(s, false) && Drained(s, o) && id in s.tasks
    ensures Rests(s, DoMaintain(s, id, pick, f), o)
  {
    hide *;
    var w, x, k := s.tasks[id], Other(o), Ctx(s, false);
    OtherTasks(s, o, id, w);
    PartFacts(s, false, o);
    LedgerRests(s, o, Err(Malformed), f);
    match w
    case AwaitDrain(_, _, _) =>
      DrainedShape(s, id, pick, f);
      var retire := ActiveGenerations(s.Ledger(w.owner), w.replaced);
      OtherTasks(s, o, id, Retiring(w.owner, retire));
      TasksRest(s, s, o, s.tasks[id := Retiring(w.owner, retire)]);
    case Retiring(_, _) =>
      RetiringShape(s, id, pick, f);
      if w.retire == map[] {
        OtherTasks(s, o, id, Sweeping(w.owner, LoadConfig));
        TasksRest(s, s, o, s.tasks[id := Sweeping(w.owner, LoadConfig)]);
      } else if pick in w.retire {
        var r := Retire(w.owner, s.Ledger(w.owner), pick, w.retire[pick]);
        LedgerRests(s, o, r, f);
        ApplyFrame(s, false, w.owner, r, f);
        OtherTasks(s, o, id, Retiring(w.owner, w.retire - {pick}));
        TasksRest(s, Apply(s, x, r, f), o, s.tasks[id := Retiring(w.owner, w.retire - {pick})]);
        TasksRest(s, Apply(s, x, r, f), o, s.tasks - {id});
      }
    case Sweeping(_, _) =>
      SweepingShape(s, id, pick, f);
      SweepStays(s, w.owner, w.sweep, pick, f);
      assert w == Sweeping(w.owner, w.sweep);
      SweepingOk(k, s.vault, w.owner, w.sweep);
      SweepOwner(k, w.owner, s.vault, w.sweep);
      SweepRests(s, o, w.sweep, pick, f);
      var q := SweepStep(s, w.owner, w.sweep, pick, f);
      if q.1.Some? {
        OtherTasks(s, o, id, Sweeping(w.owner, q.1.value));
        TasksRest(s, q.0, o, s.tasks[id := Sweeping(w.owner, q.1.value)]);
      } else {
        TasksRest(s, q.0, o, s.tasks - {id});
      }
  }

  lemma WholeDraftRests(s: System, o: Owner, d: Draft, now: nat)
    requires Drained(s, o)
    ensures Rests(s, DoInstall(s, d, now), o) && Rests(s, DoRecommit(s, d, now), o)
  {
    assert OwnSecrets(DoRecommit(s, d, now), o) == OwnSecrets(s, o);
  }

  lemma ChangeRests(s: System, o: Owner, x: Owner, expected: int, p: Plan)
    requires Drained(s, o)
    ensures Rests(s, DoBegin(s, x, expected, p), o)
  {
    assert OwnSecrets(DoBegin(s, x, expected, p), o) == OwnSecrets(s, o);
  }

  lemma GiveUpRests(s: System, o: Owner, x: Owner)
    requires Drained(s, o)
    ensures Rests(s, DoGiveUp(s, x), o)
  {
    hide *;
    TwoOwners(o, x);
    DrainedFacts(s, o);
    GiveUpShape(s, x);
    LedgerRests(s, o, Err(Malformed), Done);
  }

  lemma MountRests(s: System, o: Owner, x: Owner, up: bool)
    requires Drained(s, o)
    ensures Rests(s, DoMount(s, x, up), o)
  {
    assert OwnSecrets(DoMount(s, x, up), o) == OwnSecrets(s, o);
  }

  lemma RuntimeRests(s: System, o: Owner, x: Owner, flag: bool, n: nat)
    requires Drained(s, o)
    ensures Rests(s, DoRemount(s, x, flag), o) && Rests(s, DoDrain(s, n), o)
  {
    assert OwnSecrets(DoRemount(s, x, flag), o) == OwnSecrets(s, o);
    assert OwnSecrets(DoDrain(s, n), o) == OwnSecrets(s, o);
  }

  lemma ClosingRests(s: System, o: Owner, x: Owner, id: nat)
    requires Drained(s, o)
    ensures Rests(s, s.(closed := s.closed + {x}), o) && Rests(s, s.(tasks := s.tasks - {id}), o)
  {
    assert OwnSecrets(s.(closed := s.closed + {x}), o) == OwnSecrets(s, o);
    assert OwnSecrets(s.(tasks := s.tasks - {id}), o) == OwnSecrets(s, o);
  }

  lemma DrainedFacts(s: System, o: Owner)
    requires Drained(s, o)
    ensures s.boot == Serving && s.Mutation(o) == Idle
  {}

  lemma Unmaintained(s: System, id: nat, pick: Locator, f: Fault)
    requires id !in s.tasks
    ensures DoMaintain(s, id, pick, f) == s
  {}

  lemma TwoOwners(o: Owner, x: Owner)
    ensures x == o || x == Other(o)
  {}

  lemma StepRests(s: System, a: Action, o: Owner)
    requires Inv(s, false) && Drained(s, o) && !a.Crash?
    ensures Rests(s, Step(s, a), o)
  {
    hide *;
    StepShape(s, a);
    DrainedFacts(s, o);
    LedgerRests(s, o, Err(Malformed), Done);
    match a
    case Install(d, now) => WholeDraftRests(s, o, d, now);
    case Recommit(d, now) => WholeDraftRests(s, o, d, now);
    case Begin(x, e, p) => ChangeRests(s, o, x, e, p);
    case Advance(x, pick, f) =>
      TwoOwners(o, x);
      IdleStays(s, o, pick, f);
      AdvanceRests(s, o, pick, f);
    case GiveUp(x) => GiveUpRests(s, o, x);
    case Mount(x, up) => MountRests(s, o, x, up);
    case Remount(x, idle) => RuntimeRests(s, o, x, idle, 0);
    case Drain(n) => RuntimeRests(s, o, o, false, n);
    case Maintain(id, pick, f) =>
      if id in s.tasks {
        MaintainRests(s, id, pick, f, o);
      } else {
        Unmaintained(s, id, pick, f);
      }
    case DropTask(id) => ClosingRests(s, o, o, id);
    case Close(x) => ClosingRests(s, o, x, 0);
    case _ =>
  }

  /** Quiescence: once an owner is closed and drained, no run of anybody else's actions
      changes its ledger, its section of the configuration or its secrets; and it stays
      drained, so nothing it ever started can still take effect. */
  lemma {:induction false} DrainedOwnerIsQuiet(s: System, actions: seq<Action>, o: Owner)
    requires Inv(s, false) && Drained(s, o) && SoundRun(s, actions, false)
    requires forall a :: a in actions ==> !a.Crash?
    ensures var t := Exec(s, actions); Drained(t, o) && SameFor(s, t, o)
    decreases |actions|
  {
    hide Inv, Step, Sound;
    if actions != [] {
      StepRests(s, actions[0], o);
      StepKeeps(s, false, actions[0]);
      DrainedOwnerIsQuiet(Step(s, actions[0]), actions[1..], o);
    }
  }

  // -------------------------------------------------------------------------
  // How an owner comes to be drained: close, await the change, then await its tasks
  // -------------------------------------------------------------------------

  /** Entry is closed and the change in flight has settled. */
  predicate Closing(s: System, o: Owner) {
    o in s.closed && s.Mutation(o) == Idle && s.boot == Serving
  }

  predicate NoNewTask(s: System, t: System, o: Owner) {
    forall id :: id in t.tasks && t.tasks[id].owner == o ==> id in s.tasks && s.tasks[id].owner == o
  }

  lemma SameTasks(s: System, t: System, o: Owner)
    requires t.tasks == s.tasks
    ensures NoNewTask(s, t, o)
  {}

  /** Everything but what owner `x` itself writes is as it was. */
  predicate Beside(s: System, t: System, x: Owner) {
    && t.tasks == s.tasks && t.closed == s.closed && t.boot == s.boot
    && t.Mutation(Other(x)) == s.Mutation(Other(x)) && (s.config.Some? ==> t.config.Some?)
  }

  lemma AppliedBeside(s: System, x: Owner, r: LedgerResult, f: Fault)
    ensures Beside(s, s, x) && forall m :: Beside(s, s.WithMutation(x, m), x)
    ensures var t := Apply(s, x, r, f); Beside(s, t, x) && forall m :: Beside(s, t.WithMutation(x, m), x)
  {}

  lemma StoredBeside(s: System, x: Owner, vault: set<Locator>)
    ensures Beside(s, s.(vault := vault), x) && forall m :: Beside(s, s.(vault := vault).WithMutation(x, m), x)
  {}

  lemma LandedBeside(s: System, x: Owner, n: Configuration)
    ensures forall m :: Beside(s, Landed(s, n, x, m), x)
  {}

  lemma CleanupBeside(s: System, x: Owner, c: Cleanup, f: Fault)
    ensures var t := CleanupStep(s, x, c, f).0; Beside(s, t, x) && forall m :: Beside(s, t.WithMutation(x, m), x)
  {
    hide Beside, MarkCleanupAttempt, Acknowledge, Apply;
    AppliedBeside(s, x, Err(Malformed), f);
    match c
    case Rest =>
    case Due(l) => AppliedBeside(s, x, MarkCleanupAttempt(x, s.Ledger(x), l), f);
    case Attempted(l) => StoredBeside(s, x, s.vault - {l});
    case Deleted(l) => AppliedBeside(s, x, Acknowledge(x, s.Ledger(x), l), f);
  }

  lemma AdvanceBeside(s: System, x: Owner, pick: Locator, f: Fault)
    ensures Beside(s, DoAdvance(s, x, pick, f), x)
  {
    hide *;
    AppliedBeside(s, x, Err(Malformed), f);
    match s.Mutation(x)
    case Idle => IdleStays(s, x, pick, f);
    case Adopting(current, p, adopt) =>
      AdoptingShape(s, x, pick, f);
      AppliedBeside(s, x, AdoptCommitted(x, s.Ledger(x), pick, current.generation), f);
    case Staging(current, p, todo, staged) =>
      StagingShape(s, x, pick, f);
      CommitBeside(s, x, f);
      AppliedBeside(s, x, Reserve(x, s.Ledger(x), pick, current.generation), f);
    case Writing(current, p, w, todo, staged) =>
      WritingShape(s, x, pick, f);
      StoredBeside(s, x, s.vault + {w});
    case Marking(current, p, committed, mark, fallback) =>
      MarkingShape(s, x, pick, f);
      AppliedBeside(s, x, MarkCommitted(x, s.Ledger(x), pick, committed - 1, committed), f);
      AppliedBeside(s, x, AdoptCommitted(x, s.Ledger(x), pick, committed), f);
    case Abandoning(abandon, c) =>
      AbandoningShape(s, x, pick, f);
      AppliedBeside(s, x, AbandonStaged(x, s.Ledger(x), pick), f);
      CleanupBeside(s, x, c, f);
  }

  lemma CommitBeside(s: System, x: Owner, f: Fault)
    requires s.Mutation(x).Staging?
    ensures var m := s.Mutation(x); m.todo == {} ==> Beside(s, DoCommit(s, x, m.current, m.plan, m.staged, f), x)
  {
    hide *;
    var m := s.Mutation(x);
    AppliedBeside(s, x, Err(Malformed), f);
    if m.todo == {} {
      CommitOutcome(s, x, m, f);
      var r := CommitPlan(s.config, m.current.generation, m.plan);
      if r.Committed? {
        LandedBeside(s, x, r.configuration);
      }
    }
  }

  lemma AdvanceAddsNoTask(s: System, x: Owner, pick: Locator, f: Fault)
    ensures var t := DoAdvance(s, x, pick, f); t.tasks == s.tasks && t.closed == s.closed && t.boot == s.boot
    ensures var t := DoAdvance(s, x, pick, f);
            (s.Mutation(x) == Idle ==> t == s) && t.Mutation(Other(x)) == s.Mutation(Other(x))
            && (s.config.Some? ==> t.config.Some?)
  {
    AdvanceBeside(s, x, pick, f);
    if s.Mutation(x) == Idle {
      IdleStays(s, x, pick, f);
    }
    hide DoAdvance;
  }

  /** Only tasks and one owner's own stores change. */
  predicate Maintained(s: System, t: System, o: Owner) {
    && t.closed == s.closed && t.boot == s.boot && t.Mutation(o) == s.Mutation(o) && t.config == s.config
    && NoNewTask(s, t, o)
  }

  lemma TasksMaintained(s: System, x: System, o: Owner, id: nat, task: Task)
    requires id in s.tasks && task.owner == s.tasks[id].owner
    requires x.closed == s.closed && x.boot == s.boot && x.Mutation(o) == s.Mutation(o) && x.config == s.config
             && x.tasks == s.tasks
    ensures Maintained(s, x, o) && Maintained(s, x.(tasks := s.tasks[id := task]), o)
            && Maintained(s, x.(tasks := s.tasks - {id}), o)
  {}

  lemma AppliedFields(s: System, x: Owner, r: LedgerResult, f: Fault, o: Owner)
    ensures var t := Apply(s, x, r, f);
            t.closed == s.closed && t.boot == s.boot && t.Mutation(o) == s.Mutation(o) && t.config == s.config
            && t.tasks == s.tasks
  {}

  lemma CleanedFields(s: System, x: Owner, c: Cleanup, f: Fault, o: Owner)
    ensures var t := CleanupStep(s, x, c, f).0;
            t.closed == s.closed && t.boot == s.boot && t.Mutation(o) == s.Mutation(o) && t.config == s.config
            && t.tasks == s.tasks
  {
    hide MarkCleanupAttempt, Acknowledge, Apply;
    match c
    case Rest =>
    case Due(l) => AppliedFields(s, x, MarkCleanupAttempt(x, s.Ledger(x), l), f, o);
    case Attempted(l) =>
    case Deleted(l) => AppliedFields(s, x, Acknowledge(x, s.Ledger(x), l), f, o);
  }

  lemma SweptFields(s: System, x: Owner, w: Sweep, pick: Locator, f: Fault, o: Owner)
    ensures var t := SweepStep(s, x, w, pick, f).0;
            t.closed == s.closed && t.boot == s.boot && t.Mutation(o) == s.Mutation(o) && t.config == s.config
            && t.tasks == s.tasks
  {
    if w.Cleaning? {
      CleanedFields(s, x, w.cleanup, f, o);
    }
    hide CleanupStep;
  }

  lemma MaintainAddsNoTask(s: System, id: nat, pick: Locator, f: Fault, o: Owner)
    ensures Maintained(s, DoMaintain(s, id, pick, f), o)
  {
    hide *;
    NothingMaintained(s, o);
    if id !in s.tasks {
      Unmaintained(s, id, pick, f);
    } else {
      var w := s.tasks[id];
      match w
      case AwaitDrain(_, _, _) =>
        DrainedShape(s, id, pick, f);
        TasksMaintained(s, s, o, id, Retiring(w.owner, ActiveGenerations(s.Ledger(w.owner), w.replaced)));
      case Retiring(_, _) =>
        RetiringShape(s, id, pick, f);
        TasksMaintained(s, s, o, id, Sweeping(w.owner, LoadConfig));
        if pick in w.retire {
          var r := Retire(w.owner, s.Ledger(w.owner), pick, w.retire[pick]);
          AppliedFields(s, w.owner, r, f, o);
          TasksMaintained(s, Apply(s, w.owner, r, f), o, id, Retiring(w.owner, w.retire - {pick}));
        }
      case Sweeping(_, _) =>
        SweepingShape(s, id, pick, f);
        SweptFields(s, w.owner, w.sweep, pick, f, o);
        var q := SweepStep(s, w.owner, w.sweep, pick, f);
        TasksMaintained(s, q.0, o, id, Sweeping(w.owner, if q.1.Some? then q.1.value else LoadConfig));
    }
  }

  lemma NothingMaintained(s: System, o: Owner)
    ensures Maintained(s, s, o)
  {}

  lemma ClosedBeginsNothing(s: System, o: Owner, x: Owner, e: int, p: Plan)
    requires Closing(s, o)
    ensures Closing(DoBegin(s, x, e, p), o) && NoNewTask(s, DoBegin(s, x, e, p), o)
  {
    hide ManagedRefs, PlanRefs, ValidPlan;
  }

  lemma ClosedMountsNothing(s: System, o: Owner, x: Owner, flag: bool)
    requires Closing(s, o)
    ensures Closing(DoMount(s, x, flag), o) && NoNewTask(s, DoMount(s, x, flag), o)
  {
    hide ManagedRefs, PlanRefs, Refs;
  }

  lemma ClosedRemountsNothing(s: System, o: Owner, x: Owner, flag: bool)
    requires Closing(s, o)
    ensures Closing(DoRemount(s, x, flag), o) && NoNewTask(s, DoRemount(s, x, flag), o)
  {
    hide ManagedRefs, PlanRefs, Refs;
  }

  lemma ClosedGivesNothingUp(s: System, o: Owner, x: Owner)
    requires Closing(s, o)
    ensures Closing(DoGiveUp(s, x), o) && NoNewTask(s, DoGiveUp(s, x), o)
  {
    hide ManagedRefs, PlanRefs, Refs;
  }

  lemma OthersAddNothing(s: System, o: Owner, a: Action)
    requires Closing(s, o)
    requires a.Install? || a.Recommit? || a.Drain? || a.DropTask? || a.Close?
    ensures Closing(Step(s, a), o) && NoNewTask(s, Step(s, a), o)
  {
    StepShape(s, a);
    hide Step, CommitDraft, Refs;
  }

  /** Without a crash, a closing owner stays so whatever anybody does, and gets no task. */
  lemma ClosingStays(s: System, a: Action, o: Owner)
    requires Closing(s, o) && !a.Crash?
    ensures Closing(Step(s, a), o) && NoNewTask(s, Step(s, a), o)
  {
    hide Step, DoAdvance, DoMaintain, DoBegin, DoMount, DoRemount, DoGiveUp, DoInstall, DoRecommit;
    StepShape(s, a);
    SameTasks(s, s, o);
    match a
    case Begin(x, e, p) => ClosedBeginsNothing(s, o, x, e, p);
    case Advance(x, pick, f) =>
      TwoOwners(o, x);
      OthersOther(o);
      AdvanceAddsNoTask(s, x, pick, f);
    case GiveUp(x) => ClosedGivesNothingUp(s, o, x);
    case Mount(x, up) => ClosedMountsNothing(s, o, x, up);
    case Remount(x, idle) => ClosedRemountsNothing(s, o, x, idle);
    case Maintain(id, pick, f) => MaintainAddsNoTask(s, id, pick, f, o);
    case Recover(_, _) =>
    case SkipRecovery =>
    case _ => OthersAddNothing(s, o, a);
  }

  predicate NoCrash(actions: seq<Action>) {
    forall a :: a in actions ==> !a.Crash?
  }

  lemma {:induction false} ClosingStaysAlong(s: System, actions: seq<Action>, o: Owner)
    requires Closing(s, o) && NoCrash(actions)
    ensures Closing(Exec(s, actions), o) && NoNewTask(s, Exec(s, actions), o)
    decreases |actions|
  {
    hide Step, Closing;
    if actions == [] {
      SameTasks(s, s, o);
    } else {
      ClosingStays(s, actions[0], o);
      ClosingStaysAlong(Step(s, actions[0]), actions[1..], o);
    }
  }

  lemma {:induction false} ClosedStays(s: System, actions: seq<Action>, o: Owner)
    requires o in s.closed && s.boot == Serving && NoCrash(actions)
    ensures var t := Exec(s, actions); o in t.closed && t.boot == Serving
    decreases |actions|
  {
    hide Step;
    if actions != [] {
      StaysClosed(s, actions[0], o);
      ClosedStays(Step(s, actions[0]), actions[1..], o);
    }
  }

  lemma StaysClosed(s: System, a: Action, o: Owner)
    requires o in s.closed && s.boot == Serving && !a.Crash?
    ensures o in Step(s, a).closed && Step(s, a).boot == Serving
  {
    hide DoAdvance, DoMaintain;
    if a.Advance? {
      AdvanceAddsNoTask(s, a.owner, a.pick, a.fault);
    } else if a.Maintain? {
      MaintainAddsNoTask(s, a.id, a.pick, a.fault, o);
    }
    hide ManagedRefs, PlanRefs, Refs, CommitDraft, ValidPlan;
  }

  lemma {:induction false} ConfigStays(s: System, actions: seq<Action>)
    requires s.config.Some? && s.boot == Serving && NoCrash(actions)
    ensures Exec(s, actions).config.Some? && Exec(s, actions).boot == Serving
    decreases |actions|
  {
    hide Step;
    if actions != [] {
      ConfigStaysOnce(s, actions[0]);
      ConfigStays(Step(s, actions[0]), actions[1..]);
    }
  }

  lemma ConfigStaysOnce(s: System, a: Action)
    requires s.config.Some? && s.boot == Serving && !a.Crash?
    ensures Step(s, a).config.Some? && Step(s, a).boot == Serving
  {
    hide DoAdvance, DoMaintain;
    if a.Advance? {
      AdvanceAddsNoTask(s, a.owner, a.pick, a.fault);
    } else if a.Maintain? {
      MaintainAddsNoTask(s, a.id, a.pick, a.fault, ModelOwner);
    }
    hide ManagedRefs, PlanRefs, Refs, CommitDraft, ValidPlan;
  }

  /** closeAndDrain: in a run without a crash, close the owner, some time later find that
      its change has settled, and some time after that find that it has no task. Then it is
      drained, and whatever runs on changes nothing of it. */
  lemma CloseAndDrainIsQuiet(s: System, o: Owner, waiting: seq<Action>, draining: seq<Action>, rest: seq<Action>)
    requires Inv(s, false) && s.boot == Serving && s.config.Some?
    requires var run := [Close(o)] + waiting + draining + rest; SoundRun(s, run, false) && NoCrash(run)
    requires Exec(s, [Close(o)] + waiting).Mutation(o) == Idle
    requires OthersOnly(Exec(s, [Close(o)] + waiting + draining).tasks, o)
    ensures var t := Exec(s, [Close(o)] + waiting + draining);
            var u := Exec(s, [Close(o)] + waiting + draining + rest);
            Drained(t, o) && Drained(u, o) && SameFor(t, u, o)
  {
    hide *;
    var first, second := [Close(o)] + waiting, [Close(o)] + waiting + draining;
    Parts(o, waiting, draining, rest);
    ExecSplit(s, first, draining);
    ExecSplit(s, second, rest);
    SoundParts(s, second, rest);
    SoundParts(s, first, draining);
    ClosesFirst(s, o, waiting);
    ConfigStays(s, second);
    ClosingIs(Exec(s, first), o);
    ClosingStaysAlong(Exec(s, first), draining, o);
    ClosingIs(Exec(s, second), o);
    DrainedIs(Exec(s, second), o);
    RunKeeps(s, false, second);
    NoCrashIs(rest);
    DrainedOwnerIsQuiet(Exec(s, second), rest, o);
  }

  lemma Parts(o: Owner, waiting: seq<Action>, draining: seq<Action>, rest: seq<Action>)
    requires NoCrash([Close(o)] + waiting + draining + rest)
    ensures NoCrash([Close(o)] + waiting) && NoCrash([Close(o)] + waiting + draining) && NoCrash(waiting)
            && NoCrash(draining) && NoCrash(rest)
  {}

  lemma NoCrashIs(actions: seq<Action>)
    requires NoCrash(actions)
    ensures forall a :: a in actions ==> !a.Crash?
  {}

  lemma ClosesFirst(s: System, o: Owner, waiting: seq<Action>)
    requires s.boot == Serving && NoCrash(waiting)
    ensures var t := Exec(s, [Close(o)] + waiting); o in t.closed && t.boot == Serving
  {
    StepShape(s, Close(o));
    assert ([Close(o)] + waiting)[1..] == waiting;
    ClosedStays(Step(s, Close(o)), waiting, o);
    hide Step;
  }

  lemma ClosingIs(s: System, o: Owner)
    ensures Closing(s, o) <==> o in s.closed && s.Mutation(o) == Idle && s.boot == Serving
  {}

  lemma DrainedIs(s: System, o: Owner)
    ensures Drained(s, o) <==> Closing(s, o) && s.config.Some? && OthersOnly(s.tasks, o)
  {}

  lemma {:induction false} SoundParts(s: System, first: seq<Action>, second: seq<Action>)
    requires SoundRun(s, first + second, false)
    ensures SoundRun(s, first, false) && SoundRun(Exec(s, first), second, false)
    decreases |first|
  {
    hide Step, Sound;
    if first == [] {
      assert first + second == second;
    } else {
      assert (first + second)[1..] == first[1..] + second;
      SoundParts(Step(s, first[0]), first[1..], second);
    }
  }

  /** The order matters. Awaiting the tasks first and the change afterwards would not do: a
      removal of the voice capability that is closed in flight still adds its retirement
      when it settles, so that the owner is closed and idle with a task after all. */
  lemma DrainingFirstIsNotEnough(s: System)
    requires s.boot == Serving && VoiceOwner in s.closed && OthersOnly(s.tasks, VoiceOwner)
    requires var m := s.Mutation(VoiceOwner); m.Marking? && m.plan.DisableVoice? && m.mark == {} && m.fallback == {}
    ensures var t := Step(s, Mount(VoiceOwner, true));
            t.Mutation(VoiceOwner) == Idle && VoiceOwner in t.closed && !OthersOnly(t.tasks, VoiceOwner)
            && !Drained(t, VoiceOwner)
  {
    var t := Step(s, Mount(VoiceOwner, true));
    StepShape(s, Mount(VoiceOwner, true));
    assert s.nextTask in t.tasks && t.tasks[s.nextTask].owner == VoiceOwner;
    hide Step;
  }
}
