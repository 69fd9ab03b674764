/** The retry hypothesis is exact: wherever a replaced model credential can be replaced at
    all, a retry over a generation that still leases it opens the way to deleting it. */
module ProtocolRetry {
  import opened Wrappers
  import opened Configurations
  import opened CleanupLedgers
  import opened CredentialProtocol
  import opened ProtocolInvariant
  import opened ProtocolSteps
  import opened ProtocolCommit
  import opened ProtocolAdvance
  import opened ProtocolActions
  import opened ProtocolRuntimes
  import opened ProtocolRecovery
  import opened ProtocolRuns
  import opened ProtocolHistory
  import opened ProtocolGuarantees
  import opened SettingsRuns
  import ProtocolLimits
  import Retirements
  import RecoveryPass
  import Startup

  // -------------------------------------------------------------------------
  // What a change leaves alone until its swap
  // -------------------------------------------------------------------------

  /** The runtime generations, the tasks and the mode are as they were. */
  predicate SameGenerations(s: System, t: System) {
    && t.runtimes == s.runtimes && t.mounted == s.mounted && t.nextSerial == s.nextSerial
    && t.tasks == s.tasks && t.nextTask == s.nextTask && t.boot == s.boot
  }

  lemma AppliedGenerations(s: System, x: Owner, r: LedgerResult, f: Fault)
    ensures SameGenerations(s, s) && forall m :: SameGenerations(s, s.WithMutation(x, m))
    ensures var t := Apply(s, x, r, f); SameGenerations(s, t) && forall m :: SameGenerations(s, t.WithMutation(x, m))
  {}

  lemma StoredGenerations(s: System, x: Owner, vault: set<Locator>)
    ensures SameGenerations(s, s.(vault := vault))
            && forall m :: SameGenerations(s, s.(vault := vault).WithMutation(x, m))
  {}

  lemma LandedGenerations(s: System, x: Owner, n: Configuration)
    ensures forall m :: SameGenerations(s, Landed(s, n, x, m))
  {}

  lemma CleanupGenerations(s: System, x: Owner, c: Cleanup, f: Fault)
    ensures var t := CleanupStep(s, x, c, f).0;
            SameGenerations(s, t) && forall m :: SameGenerations(s, t.WithMutation(x, m))
  {
    hide SameGenerations, MarkCleanupAttempt, Acknowledge, Apply;
    AppliedGenerations(s, x, Err(Malformed), f);
    match c
    case Rest =>
    case Due(l) => AppliedGenerations(s, x, MarkCleanupAttempt(x, s.Ledger(x), l), f);
    case Attempted(l) => StoredGenerations(s, x, s.vault - {l});
    case Deleted(l) => AppliedGenerations(s, x, Acknowledge(x, s.Ledger(x), l), f);
  }

  lemma CommitGenerations(s: System, x: Owner, f: Fault)
    requires s.Mutation(x).Staging?
    ensures var m := s.Mutation(x); m.todo == {} ==> SameGenerations(s, DoCommit(s, x, m.current, m.plan, m.staged, f))
  {
    hide *;
    var m := s.Mutation(x);
    AppliedGenerations(s, x, Err(Malformed), f);
    if m.todo == {} {
      CommitOutcome(s, x, m, f);
      var r := CommitPlan(s.config, m.current.generation, m.plan);
      if r.Committed? {
        LandedGenerations(s, x, r.configuration);
      }
    }
  }

  lemma AdvanceGenerations(s: System, x: Owner, pick: Locator, f: Fault)
    ensures SameGenerations(s, DoAdvance(s, x, pick, f))
  {
    hide *;
    AppliedGenerations(s, x, Err(Malformed), f);
    match s.Mutation(x)
    case Idle => IdleStays(s, x, pick, f);
    case Adopting(current, p, adopt) =>
      AdoptingShape(s, x, pick, f);
      AppliedGenerations(s, x, AdoptCommitted(x, s.Ledger(x), pick, current.generation), f);
    case Staging(current, p, todo, staged) =>
      StagingShape(s, x, pick, f);
      CommitGenerations(s, x, f);
      AppliedGenerations(s, x, Reserve(x, s.Ledger(x), pick, current.generation), f);
    case Writing(current, p, w, todo, staged) =>
      WritingShape(s, x, pick, f);
      StoredGenerations(s, x, s.vault + {w});
    case Marking(current, p, committed, mark, fallback) =>
      MarkingShape(s, x, pick, f);
      AppliedGenerations(s, x, MarkCommitted(x, s.Ledger(x), pick, committed - 1, committed), f);
      AppliedGenerations(s, x, AdoptCommitted(x, s.Ledger(x), pick, committed), f);
    case Abandoning(abandon, c) =>
      AbandoningShape(s, x, pick, f);
      AppliedGenerations(s, x, AbandonStaged(x, s.Ledger(x), pick), f);
      CleanupGenerations(s, x, c, f);
  }

  lemma BeginGenerations(s: System, x: Owner, e: int, p: Plan)
    ensures SameGenerations(s, DoBegin(s, x, e, p))
  {
    hide ManagedRefs, PlanRefs, ValidPlan;
  }

  predicate Quiet(a: Action) {
    a.Begin? || (a.Advance? && a.fault == Done)
  }

  lemma QuietStep(s: System, a: Action)
    requires Quiet(a) && s.boot == Serving
    ensures SameGenerations(s, Step(s, a)) && Step(s, a).boot == Serving
  {
    hide Step, DoAdvance, DoBegin;
    StepShape(s, a);
    if a.Begin? {
      BeginGenerations(s, a.owner, a.expected, a.plan);
    } else {
      AdvanceGenerations(s, a.owner, a.pick, a.fault);
    }
  }

  lemma {:induction false} QuietRun(s: System, trace: seq<Action>)
    requires (forall a :: a in trace ==> Quiet(a)) && s.boot == Serving
    ensures SameGenerations(s, Exec(s, trace))
    decreases |trace|
  {
    hide Step, Quiet;
    if trace != [] {
      QuietStep(s, trace[0]);
      QuietRun(Step(s, trace[0]), trace[1..]);
    }
  }

  // -------------------------------------------------------------------------
  // Replacing the configured credential
  // -------------------------------------------------------------------------

  const NoFaults: nat -> Fault := (i: nat) => Done

  function Own(s: System): Locator
    requires s.config.Some?
  {
    s.config.value.draft.model.credential
  }

  /** A change of the model can go through: its pattern recognises the configured
      credential, the ledger takes its adoption and has room for one more entry, and the
      deletion of the old one may still be attempted. */
  predicate CanReplace(s: System) {
    && s.config.Some? && Own(s).managed
    && var r := AdoptCommitted(ModelOwner, s.Ledger(ModelOwner), Own(s), s.config.value.generation);
       r.Ok? && |r.entries| < MAX_ENTRIES && Own(s) in View(r.entries)
       && View(r.entries)[Own(s)].attempts < MAX_ATTEMPTS
  }

  lemma {:induction false} FreshNonce(issued: set<Locator>) returns (n: nat)
    ensures forall l :: l in issued ==> l.nonce < n
    decreases |issued|
  {
    n := 0;
    if issued != {} {
      var l :| l in issued;
      var k := FreshNonce(issued - {l});
      n := if k > l.nonce then k else l.nonce + 1;
    }
  }

  function Candidate(n: nat): ModelConfig {
    ModelConfig("model", None, Locator(OperationalModel, 0, n, true))
  }

  lemma CandidateIs(n: nat, s: System)
    requires forall l :: l in s.issued ==> l.nonce < n
    ensures var p, m := ReplaceModel(Candidate(n)), Candidate(n).credential;
            && ValidPlan(p) && PlanOwner(p) == ModelOwner && PlanRefs(p) == {m} && PlanRefs(p) !! s.issued
            && !p.DisableVoice?
            && ValidReference(ModelOwner, m)
            && (s.config.Some? ==>
                  var e, c := s.config.value.generation, s.config.value;
                  CommitPlan(Some(c), e, p).Committed? && CommitPlan(Some(c), e, p).configuration.generation == e + 1)
            && m !in s.issued
  {}

  lemma OwnIs(s: System)
    requires CanReplace(s)
    ensures ManagedRefs(s.config.value, ModelOwner) == {Own(s)} && Refs(s.config.value, ModelOwner) == {Own(s)}
  {}

  lemma AdoptedIsActive(es: seq<Entry>, l: Locator, g: int)
    requires Unique(es) && AdoptCommitted(ModelOwner, es, l, g).Ok?
    ensures var e := AdoptCommitted(ModelOwner, es, l, g).entries;
            Unique(e) && l in View(e) && View(e)[l].phase == Active && ValidReference(ModelOwner, l)
  {
    AdoptCommittedEffect(ModelOwner, es, l, g);
    hide View, Find;
  }

  lemma SameEntryAt(es: seq<Entry>, es': seq<Entry>, l: Locator)
    requires SameAt(View(es), View(es'), l) && l in View(es)
    ensures l in View(es') && View(es')[l] == View(es)[l]
  {}

  lemma DoneIs(o: Owner, l: Locator)
    ensures Quiet(Advance(o, l, Done)) && NoFaults(0) == Done
    ensures forall k: nat :: NoFaults(k) == Done
  {}

  lemma CommittedThen(c: Configuration, p: Plan)
    requires CommitPlan(Some(c), c.generation, p).Committed?
    ensures CommittedConfig(Some(c), c, p, Done) == Some(CommitPlan(Some(c), c.generation, p).configuration)
  {}

  /** A ledger write without a fault. */
  predicate Goes(es: seq<Entry>, r: LedgerResult, es': seq<Entry>) {
    Succeeds(r, Done) && Written(es, r, Done) == es'
  }

  lemma GoesIs(es: seq<Entry>, r: LedgerResult)
    requires r.Ok?
    ensures Goes(es, r, r.entries)
  {}

  /** The ledger after the old credential is recorded as owned. */
  lemma AdoptedEntries(s: System, m: Locator) returns (es1: seq<Entry>)
    requires Inv(s, false) && CanReplace(s) && m !in s.issued && ValidReference(ModelOwner, m)
    ensures var es0, g := s.Ledger(ModelOwner), s.config.value.generation;
            && Goes(es0, AdoptCommitted(ModelOwner, es0, Own(s), g), es1)
            && UpTo(es1, g) && NewTo(ModelOwner, es1, {m}) && |es1| < MAX_ENTRIES && Own(s) != m
            && Own(s) in View(es1) && View(es1)[Own(s)].phase == Active && View(es1)[Own(s)].attempts < MAX_ATTEMPTS
  {
    var o, g, l, es0 := ModelOwner, s.config.value.generation, Own(s), s.Ledger(ModelOwner);
    CanReplaceIs(s);
    OwnIs(s);
    LedgerFacts(s, false, o);
    hide *;
    UnissuedIsNew(o, s, {m});
    AdoptedIsActive(es0, l, g);
    AdoptedFromItself(es0, g, {l});
    AdoptMoves(o, es0, es0, g, {l}, l, Done);
    GoesIs(es0, AdoptCommitted(o, es0, l, g));
    es1 := AdoptCommitted(o, es0, l, g).entries;
    WrittenIs(es0, AdoptCommitted(o, es0, l, g));
    AdoptedKeepsNew(o, es0, es1, g, {l}, {m});
  }

  lemma SameAfterAll(es1: seq<Entry>, es3: seq<Entry>, g: int, staged: set<Locator>, marked: set<Locator>, l: Locator)
    requires Midway(es1, es3, g, staged, marked) && l !in staged && l !in marked && l in View(es1)
    ensures l in View(es3) && View(es3)[l] == View(es1)[l]
  {
    MidwayIs(es1, es3, g, staged, marked);
    SameEntryAt(es1, es3, l);
    hide Midway;
  }

  /** And after the candidate is reserved and recorded: the old credential stays. */
  lemma ChangedEntries(es1: seq<Entry>, g: int, l: Locator, m: Locator) returns (es2: seq<Entry>, es3: seq<Entry>)
    requires UpTo(es1, g) && NewTo(ModelOwner, es1, {m}) && |es1| < MAX_ENTRIES && l in View(es1) && l != m && g >= 0
    ensures Goes(es1, Reserve(ModelOwner, es1, m, g), es2)
            && Goes(es2, MarkCommitted(ModelOwner, es2, m, g, g + 1), es3)
    ensures l in View(es3) && View(es3)[l] == View(es1)[l]
  {
    hide *;
    var o := ModelOwner;
    MidwayStart(es1, g);
    NewOne(o, es1, m);
    ReserveMoves(o, es1, es1, g, {}, m);
    GoesIs(es1, Reserve(o, es1, m, g));
    es2 := Reserve(o, es1, m, g).entries;
    MarkMoves(o, es1, es2, g, {} + {m}, {}, m);
    GoesIs(es2, MarkCommitted(o, es2, m, g, g + 1));
    es3 := MarkCommitted(o, es2, m, g, g + 1).entries;
    SameAfterAll(es1, es3, g, {} + {m} - {m}, {} + {m}, l);
  }

  lemma WrittenIs(es: seq<Entry>, r: LedgerResult)
    ensures r.Ok? ==> Written(es, r, Done) == r.entries
  {}

  lemma CanReplaceIs(s: System)
    requires CanReplace(s)
    ensures s.config.Some? && Own(s).managed
    ensures var r := AdoptCommitted(ModelOwner, s.Ledger(ModelOwner), Own(s), s.config.value.generation);
            r.Ok? && |r.entries| < MAX_ENTRIES && Own(s) in View(r.entries)
            && View(r.entries)[Own(s)].attempts < MAX_ATTEMPTS
  {}

  lemma GoesFacts(es: seq<Entry>, r: LedgerResult, es': seq<Entry>, k: nat)
    requires Goes(es, r, es')
    ensures NoFaults(k) == Done && Succeeds(r, NoFaults(k)) && Written(es, r, NoFaults(k)) == es'
  {}

  predicate AllQuiet(trace: seq<Action>) {
    forall a :: a in trace ==> Quiet(a)
  }

  lemma QuietOn(trace: seq<Action>, o: Owner, l: Locator)
    requires AllQuiet(trace)
    ensures AllQuiet(trace + [Advance(o, l, Done)])
  {}

  /** The change up to where its candidate is staged next. */
  lemma ChangesUpToStaging(s: System, p: Plan, es1: seq<Entry>) returns (trace: seq<Action>)
    requires s.config.Some? && s.boot == Serving && ModelOwner !in s.closed && s.Mutation(ModelOwner) == Idle
    requires ManagedRefs(s.config.value, ModelOwner) == {Own(s)}
    requires ValidPlan(p) && PlanOwner(p) == ModelOwner && PlanRefs(p) !! s.issued && !p.DisableVoice?
    requires var es0 := s.Ledger(ModelOwner);
             Goes(es0, AdoptCommitted(ModelOwner, es0, Own(s), s.config.value.generation), es1)
    ensures Stands(ModelOwner, s, NoFaults, trace, Staging(s.config.value, p, PlanRefs(p), {}), es1, s.vault, s.config)
            && AllQuiet(trace)
  {
    hide *;
    var o, c, l, es0 := ModelOwner, s.config.value, Own(s), s.Ledger(ModelOwner);
    BeginsQuietly(o, c.generation, p);
    StandsAtStart(o, s, NoFaults, es0, s.vault, s.config);
    GoesFacts(es0, AdoptCommitted(o, es0, l, c.generation), es1, 0);
    var begun := BeginTurn(o, s, NoFaults, p, es0, s.vault, s.config);
    var adopted := AdoptTurn(o, s, NoFaults, begun, c, p, {l}, {}, l, 0, es0, s.vault, s.config);
    QuietOn(begun, o, l);
    trace := AdoptedTurn(o, s, NoFaults, adopted, c, p, l, es1, s.vault, s.config);
    QuietOn(adopted, o, l);
  }

  /** From there to the swap. */
  lemma ChangesOn(s: System, before: seq<Action>, c: Configuration, p: Plan, m: Locator, es1: seq<Entry>,
                  es2: seq<Entry>, es3: seq<Entry>)
    returns (trace: seq<Action>, c': Configuration)
    requires Stands(ModelOwner, s, NoFaults, before, Staging(c, p, {m}, {}), es1, s.vault, Some(c)) && AllQuiet(before)
             && PlanRefs(p) == {m}
    requires Goes(es1, Reserve(ModelOwner, es1, m, c.generation), es2)
    requires Goes(es2, MarkCommitted(ModelOwner, es2, m, c.generation, c.generation + 1), es3)
    requires var r := CommitPlan(Some(c), c.generation, p);
             r.Committed? && r.configuration.generation == c.generation + 1
    ensures Stands(ModelOwner, s, NoFaults, trace, Marking(c, p, c.generation + 1, {}, {}), es3, s.vault + {m},
                   Some(c')) && AllQuiet(trace)
  {
    CommittedThen(c, p);
    hide *;
    var o, g := ModelOwner, c.generation;
    DoneIs(o, m);
    GoesFacts(es1, Reserve(o, es1, m, g), es2, 0);
    GoesFacts(es2, MarkCommitted(o, es2, m, g, g + 1), es3, 0);
    var reserved := ReserveTurn(o, s, NoFaults, before, c, p, {m}, {}, m, 0, {}, {m}, es1, s.vault, Some(c));
    QuietOn(before, o, m);
    var written := WriteTurn(o, s, NoFaults, reserved, c, p, m, {}, {m}, 0, es2, s.vault, Some(c));
    QuietOn(reserved, o, m);
    var committed := CommitTurn(o, s, NoFaults, written, c, p, {m}, {m}, m, 0, es2, s.vault + {m}, Some(c));
    QuietOn(written, o, m);
    c' := CommitPlan(Some(c), g, p).configuration;
    trace := MarkTurn(o, s, NoFaults, committed, c, p, g + 1, {m}, {}, m, 0, {}, es2, s.vault + {m}, Some(c'));
    QuietOn(committed, o, m);
  }

  /** A change that replaces the credential, up to its swap: the old credential is recorded
      as owned. */
  lemma ChangesUpToSwap(s: System, n: nat) returns (trace: seq<Action>, es: seq<Entry>, c': Configuration)
    requires Inv(s, false) && s.boot == Serving && ModelOwner !in s.closed && s.Mutation(ModelOwner) == Idle
             && CanReplace(s)
    requires forall l :: l in s.issued ==> l.nonce < n
    ensures var p, m, c := ReplaceModel(Candidate(n)), Candidate(n).credential, s.config.value;
            && Stands(ModelOwner, s, NoFaults, trace, Marking(c, p, c.generation + 1, {}, {}), es, s.vault + {m},
                      Some(c')) && AllQuiet(trace)
            && Own(s) in View(es) && View(es)[Own(s)].phase == Active && View(es)[Own(s)].attempts < MAX_ATTEMPTS
  {
    hide *;
    CanReplaceIs(s);
    CandidateIs(n, s);
    OwnIs(s);
    GenerationIsNat(s);
    var p, m, c := ReplaceModel(Candidate(n)), Candidate(n).credential, s.config.value;
    var es1 := AdoptedEntries(s, m);
    var es2, es3 := ChangedEntries(es1, c.generation, Own(s), m);
    var before := ChangesUpToStaging(s, p, es1);
    es := es3;
    trace, c' := ChangesOn(s, before, c, p, m, es1, es2, es3);
  }

  lemma GenerationIsNat(s: System)
    ensures s.config.Some? ==> s.config.value.generation >= 0 && s.config == Some(s.config.value)
  {}

  lemma BeginsQuietly(o: Owner, g: int, p: Plan)
    ensures Quiet(Begin(o, g, p))
  {}

  lemma NewOne(o: Owner, es: seq<Entry>, m: Locator)
    requires NewTo(o, es, {m})
    ensures m !in View(es) && ValidReference(o, m)
  {}

  // -------------------------------------------------------------------------
  // Deleting what was replaced
  // -------------------------------------------------------------------------

  predicate Tending(a: Action) {
    a.Maintain? && a.fault == Done
  }

  lemma TendingIs(id: nat, l: Locator)
    ensures Tending(Maintain(id, l, Done))
  {}

  lemma MaintainRuntimes(s: System, id: nat, pick: Locator, f: Fault)
    ensures DoMaintain(s, id, pick, f).runtimes == s.runtimes && DoMaintain(s, id, pick, f).boot == s.boot
  {
    hide *;
    if id !in s.tasks {
      Untended(s, id, pick, f);
    } else {
      var w := s.tasks[id];
      match w
      case AwaitDrain(_, _, _) => DrainedShape(s, id, pick, f);
      case Retiring(_, _) =>
        RetiringShape(s, id, pick, f);
        if pick in w.retire {
          AppliedRuntimes(s, w.owner, Retire(w.owner, s.Ledger(w.owner), pick, w.retire[pick]), f);
        }
      case Sweeping(_, _) =>
        SweepingShape(s, id, pick, f);
        SweptRuntimes(s, w.owner, w.sweep, pick, f);
    }
  }

  lemma Untended(s: System, id: nat, pick: Locator, f: Fault)
    requires id !in s.tasks
    ensures DoMaintain(s, id, pick, f) == s
  {}

  lemma AppliedRuntimes(s: System, o: Owner, r: LedgerResult, f: Fault)
    ensures Apply(s, o, r, f).runtimes == s.runtimes && Apply(s, o, r, f).boot == s.boot
  {}

  lemma SweptRuntimes(s: System, o: Owner, w: Sweep, pick: Locator, f: Fault)
    ensures var t := SweepStep(s, o, w, pick, f).0; t.runtimes == s.runtimes && t.boot == s.boot
  {
    hide CleanupStep, SameGenerations;
    if w.Cleaning? {
      CleanupGenerations(s, o, w.cleanup, f);
      SameGenerationsIs(s, CleanupStep(s, o, w.cleanup, f).0);
    }
  }

  lemma SameGenerationsIs(s: System, t: System)
    ensures SameGenerations(s, t) ==> t.runtimes == s.runtimes && t.mounted == s.mounted && t.nextSerial == s.nextSerial
                                      && t.tasks == s.tasks && t.nextTask == s.nextTask && t.boot == s.boot
  {}

  lemma {:induction false} TendingRun(s: System, trace: seq<Action>)
    requires (forall a :: a in trace ==> Tending(a)) && s.boot == Serving
    ensures Exec(s, trace).runtimes == s.runtimes
    decreases |trace|
  {
    hide Step, DoMaintain;
    if trace != [] {
      StepShape(s, trace[0]);
      assert Tending(trace[0]);
      MaintainRuntimes(s, trace[0].id, trace[0].pick, trace[0].fault);
      TendingRun(Step(s, trace[0]), trace[1..]);
    }
  }

  lemma OneToRetire(es: seq<Entry>, l: Locator)
    requires l in View(es) && View(es)[l].phase == Active && View(es)[l].committedGeneration.Some?
    ensures ActiveGenerations(es, {l}) == map[l := View(es)[l].committedGeneration.value]
  {
    hide View;
  }

  lemma NoneLeft(l: Locator, g: int)
    ensures map[l := g] - {l} == map[] && l in map[l := g] && map[l := g][l] == g
  {}

  lemma IsPending(es: seq<Entry>, l: Locator)
    requires l in View(es) && View(es)[l].phase == PendingCleanup
    ensures l in Pending(es)
  {
    RecoveryPass.ViewKeys(es);
    hide View;
  }

  lemma IsDeletable(es: seq<Entry>, l: Locator)
    requires l in View(es) && View(es)[l].phase == PendingCleanup && View(es)[l].attempts < MAX_ATTEMPTS
    ensures RecoveryPass.Deletable(es, l)
  {}

  /** The background task retires and deletes what it was handed, given the chance. */
  lemma DeletesReplaced(t: System, id: nat, l: Locator, serial: Option<nat>, es: seq<Entry>, vault: set<Locator>,
                        config: Option<Configuration>)
    returns (trace: seq<Action>)
    requires Retirements.Tends(t, [], t, id, AwaitDrain(ModelOwner, {l}, serial), es, vault, config)
    requires serial.Some? ==> serial.value !in t.runtimes
    requires l in View(es) && View(es)[l].phase == Active && View(es)[l].attempts < MAX_ATTEMPTS
    ensures (forall a :: a in trace ==> Tending(a)) && l !in Exec(t, trace).vault
  {
    hide *;
    var o := ModelOwner;
    var idle, pick := Maintain(id, RecoveryPass.AnyLocator, Done), Maintain(id, l, Done);
    TendingIs(id, RecoveryPass.AnyLocator);
    TendingIs(id, l);
    Retirements.TendsFacts(t, [], t, id, AwaitDrain(o, {l}, serial), es, vault, config);
    Retirements.ReplacedIsUnnamed(t, [], t, id, o, {l}, serial, es, vault, config);
    Retirements.RetireWorks(o, es, l);
    var g := View(es)[l].committedGeneration.value;
    OneToRetire(es, l);
    NoneLeft(l, g);
    var active := Startup.ActiveRefs(config, o);
    // drained, retired
    Retirements.DrainTurn(t, [], t, id, o, {l}, serial, es, vault, config);
    trace := [] + [idle];
    var u := Step(t, idle);
    var r := Retire(o, es, l, g);
    Retirements.RetireTurn(t, trace, u, id, o, map[l := g], l, Done, es, vault, config);
    Retirements.ResultOf(es, r, Done);
    var es1 := r.entries;
    RecoveryPass.TouchedUnique(es, es1, l);
    HasReference(es, l);
    IsPending(es1, l);
    IsDeletable(es1, l);
    trace, u := trace + [pick], Step(u, pick);
    Retirements.RetiredTurn(t, trace, u, id, o, es1, vault, config);
    trace, u := trace + [idle], Step(u, idle);
    // listed
    Retirements.ListTurn(t, trace, u, id, o, LoadConfig, Done, es1, vault, config);
    trace, u := trace + [idle], Step(u, idle);
    Retirements.ListTurn(t, trace, u, id, o, ListPending(active), Done, es1, vault, config);
    trace, u := trace + [idle], Step(u, idle);
    assert l !in {l} * active;
    trace := PicksAndDeletes(t, trace, u, id, l, Pending(es1) - active, es1, vault, config);
  }

  lemma HasReference(es: seq<Entry>, l: Locator)
    requires (forall e :: e in es ==> ValidEntry(ModelOwner, e)) && l in View(es)
    ensures ValidReference(ModelOwner, l)
  {
    RecoveryPass.ViewKeys(es);
    hide View;
  }

  lemma PicksAndDeletes(t: System, before: seq<Action>, u: System, id: nat, l: Locator, todo: set<Locator>,
                        es: seq<Entry>, vault: set<Locator>, config: Option<Configuration>) returns (trace: seq<Action>)
    requires Retirements.Tends(t, before, u, id, Sweeping(ModelOwner, Cleaning(todo, Rest)), es, vault, config)
             && l in todo
    requires forall a :: a in before ==> Tending(a)
    requires RecoveryPass.Deletable(es, l) && ValidReference(ModelOwner, l) && Unique(es)
    ensures (forall a :: a in trace ==> Tending(a)) && l !in Exec(t, trace).vault
  {
    hide *;
    var o, pick := ModelOwner, Maintain(id, l, Done);
    TendingIs(id, l);
    Retirements.PickTurn(t, before, u, id, o, todo, l, es, vault, config);
    var v := Step(u, pick);
    trace := before + [pick];
    RecoveryPass.CountsAttempt(o, es, l);
    RecoveryPass.CleanupNames(o, es, l, Done, vault);
    Retirements.ResultOf(es, MarkCleanupAttempt(o, es, l), Done);
    Retirements.CleanTurn(t, trace, v, id, o, todo - {l}, Due(l), l, Done, es, vault, config);
    v := Step(v, pick);
    trace := trace + [pick];
    var es1 := Startup.SweptEntries(o, es, Due(l), Done);
    RecoveryPass.CleanupNames(o, es1, l, Done, vault);
    Retirements.CleanTurn(t, trace, v, id, o, todo - {l}, Attempted(l), l, Done, es1, vault, config);
    v := Step(v, pick);
    trace := trace + [pick];
    Retirements.TendsIs(t, trace, v, id,
                        Sweeping(o, Cleaning(todo - {l}, Startup.NextCleanup(o, es1, Attempted(l), Done))),
                        Startup.SweptEntries(o, es1, Attempted(l), Done), vault - {l}, config);
  }

  // -------------------------------------------------------------------------
  // The overlapping retry
  // -------------------------------------------------------------------------

  lemma ReachableBoth(s: System)
    requires Reachable(s, true)
    ensures Inv(s, true) && Inv(s, false)
  {
    ReachableIsOk(s, true);
    var actions :| SoundRun(Initial, actions, true) && Exec(Initial, actions) == s;
    hide Inv, Step, Exec, SoundRun, Initial;
    ProtocolLimits.StrictIsSound(Initial, actions);
    ReachableIsOk(s, false);
  }

  /** What an overlapping retry leaves: two generations with the configured credential, the
      mounted one being the new one. */
  lemma RetriedState(s: System, idle: bool)
    requires Inv(s, true) && s.boot == Serving && Remounts(s, ModelOwner) && Overlaps(s, Remount(ModelOwner, idle))
             && CanReplace(s)
    ensures var t, o, older, newer := Step(s, Remount(ModelOwner, idle)), ModelOwner, s.mounted[ModelOwner],
        s.nextSerial;
            && t.boot == Serving && o !in t.closed && t.Mutation(o) == Idle && t.config == s.config
            && t.Ledger(o) == s.Ledger(o)
            && CanReplace(t) && Own(t) == Own(s)
            && older in t.runtimes && Own(s) in t.runtimes[older].refs && newer in t.runtimes && older < newer
            && t.mounted == s.mounted[o := newer] && t.nextSerial == newer + 1
            && (forall x :: x in s.mounted ==> s.mounted[x] != newer)
  {
    StepShape(s, Remount(ModelOwner, idle));
    RemountShape(s, ModelOwner, idle);
    PartFacts(s, true, ModelOwner);
    RuntimesApart(s, ModelOwner);
    SerialsFacts(s);
    OwnIs(s);
    RemountFrame(s, ModelOwner, idle, false);
    hide Inv, Step, RuntimesOk, MutationOk, LedgerOk, BootOk, VaultOk, AdoptCommitted, View, SerialsOk, NoSharing,
        NamedMounted, MarkingRuntimesOk, UseOk, ReceiptOk, ConfigOk;
  }

  /** The swap retires what the change replaced under the receipt of the mounted generation,
      and that generation drains; the older one does not. */
  lemma SwapsAndDrains(t: System, c: Configuration, p: Plan, g: int, older: nat, newer: nat)
    requires t.boot == Serving && ModelOwner !in t.closed && t.Mutation(ModelOwner) == Marking(c, p, g, {}, {})
             && !p.DisableVoice?
    requires ModelOwner in t.mounted && t.mounted[ModelOwner] == newer && newer in t.runtimes && older in t.runtimes
    requires older < newer < t.nextSerial && forall x :: x in t.mounted && x != ModelOwner ==> t.mounted[x] != newer
    ensures var u := Step(Step(t, Mount(ModelOwner, true)), Drain(newer));
            && u.boot == Serving && t.nextTask in u.tasks
            && u.tasks[t.nextTask] == AwaitDrain(ModelOwner, ManagedRefs(c, ModelOwner), Some(newer))
            && newer !in u.runtimes && older in u.runtimes && u.runtimes[older] == t.runtimes[older]
            && u.Ledger(ModelOwner) == t.Ledger(ModelOwner) && u.vault == t.vault && u.config == t.config
  {
    var v := Step(t, Mount(ModelOwner, true));
    StepShape(t, Mount(ModelOwner, true));
    MountShape(t, ModelOwner, true);
    SwappedFrame(t, ModelOwner, false);
    SwapFields(t, ModelOwner);
    SwapTask(t, ModelOwner);
    assert v == Swapped(t, ModelOwner);
    StepShape(v, Drain(newer));
    hide Step, Swapped, Receipt, DoMount, PlanRefs, ManagedRefs;
  }

  predicate Calm(a: Action) {
    !a.Remount? && (a.Advance? ==> a.fault == Done)
  }

  lemma {:induction false} CalmIsSound(s: System, run: seq<Action>)
    requires forall a :: a in run ==> Calm(a)
    ensures SoundRun(s, run, true) && SoundRun(s, run, false)
    decreases |run|
  {
    hide Step;
    if run != [] {
      assert Calm(run[0]);
      CalmIsSound(Step(s, run[0]), run[1..]);
    }
  }

  lemma CalmParts(trace: seq<Action>, newer: nat, more: seq<Action>)
    requires AllQuiet(trace) && forall a :: a in more ==> Tending(a)
    ensures forall a :: a in trace + [Mount(ModelOwner, true), Drain(newer)] + more ==> Calm(a)
    ensures forall a :: a in trace + [Mount(ModelOwner, true), Drain(newer)] ==> Calm(a)
    ensures forall a :: a in trace ==> Quiet(a)
  {}

  lemma ExecTwo(s: System, a: Action, b: Action)
    ensures Exec(s, [a, b]) == Step(Step(s, a), b)
  {
    RecoveryPass.ExecSnoc(s, [], a);
    RecoveryPass.ExecSnoc(s, [a], b);
    ProtocolLimits.EmptyRun(s, false);
    assert [] + [a] == [a] && [a] + [b] == [a, b];
    hide Step;
  }

  /** The undrained generations have their secrets. */
  ghost predicate LeasesKept(t: System) {
    forall n :: n in t.runtimes ==> t.runtimes[n].refs <= t.vault
  }

  lemma LeaseLost(t: System, n: nat, l: Locator)
    requires n in t.runtimes && l in t.runtimes[n].refs && l !in t.vault
    ensures !LeasesKept(t)
  {}

  lemma StandsThere(s: System, trace: seq<Action>, m: Mutation, es: seq<Entry>, vault: set<Locator>,
                    config: Option<Configuration>)
    requires Stands(ModelOwner, s, NoFaults, trace, m, es, vault, config)
    ensures var t := Exec(s, trace);
            t.boot == Serving && t.Mutation(ModelOwner) == m && t.Ledger(ModelOwner) == es && t.vault == vault
            && t.config == config && ModelOwner !in t.closed
  {
    StandsIs(ModelOwner, s, NoFaults, trace, m, es, vault, config);
    hide Stands;
  }

  /** After an overlapping retry, an ordinary change deletes a leased credential. */
  lemma OverlapDeletes(s: System, idle: bool) returns (run: seq<Action>)
    requires Reachable(s, true) && s.boot == Serving && Remounts(s, ModelOwner) && CanReplace(s)
    requires Overlaps(s, Remount(ModelOwner, idle))
    ensures var t := Step(s, Remount(ModelOwner, idle)); SoundRun(t, run, true) && !LeasesKept(Exec(t, run))
  {
    hide *;
    OverlapsMounted(s, idle);
    var t, older, newer := Step(s, Remount(ModelOwner, idle)), s.mounted[ModelOwner], s.nextSerial;
    ReachableBoth(s);
    RetriedState(s, idle);
    RemountIsSound(s, idle);
    StepKeeps(s, false, Remount(ModelOwner, idle));
    var n := FreshNonce(t.issued);
    CanReplaceIs(t);
    var p, c := ReplaceModel(Candidate(n)), t.config.value;
    CandidateIs(n, t);
    OwnIs(t);
    var trace, es, c' := ChangesUpToSwap(t, n);
    var m := Candidate(n).credential;
    CalmParts(trace, newer, []);
    QuietRun(t, trace);
    SameGenerationsIs(t, Exec(t, trace));
    StandsThere(t, trace, Marking(c, p, c.generation + 1, {}, {}), es, t.vault + {m}, Some(c'));
    var t1 := Exec(t, trace);
    SwapsAndDrains(t1, c, p, c.generation + 1, older, newer);
    var swap := [Mount(ModelOwner, true), Drain(newer)];
    ExecTwo(t1, Mount(ModelOwner, true), Drain(newer));
    ExecSplit(t, trace, swap);
    var u := Exec(t, trace + swap);
    CalmIsSound(t, trace + swap);
    RunKeeps(t, false, trace + swap);
    TendsHere(u, t1.nextTask, AwaitDrain(ModelOwner, {Own(t)}, Some(newer)), es, t.vault + {m}, Some(c'));
    var more := DeletesReplaced(u, t1.nextTask, Own(t), Some(newer), es, t.vault + {m}, Some(c'));
    TendingRun(u, more);
    ExecSplit(t, trace + swap, more);
    run := trace + swap + more;
    CalmParts(trace, newer, more);
    CalmIsSound(t, run);
    LeaseLost(Exec(t, run), older, Own(t));
  }

  lemma OverlapsMounted(s: System, idle: bool)
    requires Overlaps(s, Remount(ModelOwner, idle))
    ensures ModelOwner in s.mounted
  {}

  lemma RemountIsSound(s: System, idle: bool)
    ensures Sound(s, Remount(ModelOwner, idle), false)
    ensures !Overlaps(s, Remount(ModelOwner, idle)) ==> Sound(s, Remount(ModelOwner, idle), true)
  {}

  lemma TendsHere(u: System, id: nat, w: Task, es: seq<Entry>, vault: set<Locator>, config: Option<Configuration>)
    requires Inv(u, false) && u.boot == Serving && id in u.tasks && u.tasks[id] == w && w.owner == ModelOwner
    requires u.Ledger(ModelOwner) == es && u.vault == vault && u.config == config
    ensures Retirements.Tends(u, [], u, id, w, es, vault, config)
  {
    Retirements.TendsIs(u, [], u, id, w, es, vault, config);
    ProtocolLimits.EmptyRun(u, false);
    hide Inv, Exec;
  }

  lemma InvKeepsLeases(t: System)
    requires Inv(t, true)
    ensures LeasesKept(t)
  {
    PartFacts(t, true, ModelOwner);
    RuntimesApart(t, ModelOwner);
    forall n | n in t.runtimes
      ensures t.runtimes[n].refs <= t.vault
    {
      assert UseOk(t.issued, t.vault, Candidates(t.Mutation(ModelOwner)) + Candidates(t.Mutation(VoiceOwner)),
                   t.runtimes[n]);
    }
    hide Inv, RuntimesOk;
  }

  /** The retry hypothesis is exact. In every reachable state in which the model can be
      replaced, a retry leads only to states where every undrained generation has its
      secrets - whatever follows, as long as no other retry overlaps and no commit is
      lost - if and only if it does not overlap itself. */
  lemma RetryHypothesisIsExact(s: System, idle: bool)
    requires Reachable(s, true) && s.boot == Serving && Remounts(s, ModelOwner) && CanReplace(s)
    ensures var t := Step(s, Remount(ModelOwner, idle));
            (forall run :: SoundRun(t, run, true) ==> LeasesKept(Exec(t, run))) <==>
            !Overlaps(s, Remount(ModelOwner, idle))
  {
    hide *;
    var t := Step(s, Remount(ModelOwner, idle));
    if Overlaps(s, Remount(ModelOwner, idle)) {
      var run := OverlapDeletes(s, idle);
      assert SoundRun(t, run, true) && !LeasesKept(Exec(t, run));
    } else {
      ReachableBoth(s);
      RemountIsSound(s, idle);
      StepKeeps(s, true, Remount(ModelOwner, idle));
      forall run | SoundRun(t, run, true)
        ensures LeasesKept(Exec(t, run))
      {
        RunKeeps(t, true, run);
        InvKeepsLeases(Exec(t, run));
      }
    }
  }
}
