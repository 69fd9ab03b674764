/** The credential lifecycle of the running product as a transition system.

    Two settings owners (model and voice), their background maintenance, start-up
    recovery, crashes and unrelated configuration commits take turns; one action is at
    most one durable effect. `Step` is total: an action that is not enabled changes
    nothing. Every choice the program does not make itself (which fault a write meets,
    which credential of a set comes next, when a cancellation arrives) is in the action. */
module CredentialProtocol {
  import opened Wrappers
  import opened Configurations
  import opened CleanupLedgers

  // -------------------------------------------------------------------------
  // What a settings change wants to commit
  // -------------------------------------------------------------------------

  datatype Plan =
    | ReplaceModel(model: ModelConfig)
    | ReplaceVoice(voice: VoiceConfig)
    | DisableVoice

  function PlanOwner(p: Plan): Owner {
    if p.ReplaceModel? then ModelOwner else VoiceOwner
  }

  function PlanRefs(p: Plan): set<Locator> {
    match p
    case ReplaceModel(m) => {m.credential}
    case ReplaceVoice(v) => VoiceRefs(v)
    case DisableVoice => {}
  }

  predicate ValidPlan(p: Plan) {
    && (p.ReplaceModel? ==> ValidModel(p.model, true))
    && (p.ReplaceVoice? ==> ValidVoice(p.voice))
    && (forall l :: l in PlanRefs(p) ==> l.managed)
  }

  function CommitPlan(current: Option<Configuration>, expected: int, p: Plan): CommitResult {
    match p
    case ReplaceModel(m) => CommitModel(current, expected, m)
    case ReplaceVoice(v) => CommitVoice(current, expected, Some(v))
    case DisableVoice => CommitVoice(current, expected, None)
  }

  // -------------------------------------------------------------------------
  // State
  // -------------------------------------------------------------------------

  /** Deleting one pending locator: count the attempt, delete, acknowledge. */
  datatype Cleanup =
    | Rest
    | Due(l: Locator)
    | Attempted(l: Locator)
    | Deleted(l: Locator)

  /** One bounded cleanup pass. */
  datatype Sweep =
    | LoadConfig
    | ListPending(skip: set<Locator>)
    | Cleaning(todo: set<Locator>, cleanup: Cleanup)

  /** Where a settings change stands. `current` is the configuration it loaded. */
  datatype Mutation =
    | Idle
    | Adopting(current: Configuration, plan: Plan, adopt: set<Locator>)
    | Staging(current: Configuration, plan: Plan, todo: set<Locator>, staged: set<Locator>)
    | Writing(current: Configuration, plan: Plan, writing: Locator, todo: set<Locator>, staged: set<Locator>)
    | Marking(current: Configuration, plan: Plan, committed: int, mark: set<Locator>, fallback: set<Locator>)
    | Abandoning(abandon: set<Locator>, cleanup: Cleanup)

  /** Background retirement of the locators a change replaced. */
  datatype Task =
    | AwaitDrain(owner: Owner, replaced: set<Locator>, serial: Option<nat>)
    | Retiring(owner: Owner, retire: map<Locator, int>)
    | Sweeping(owner: Owner, sweep: Sweep)

  datatype Recovery =
    | AdoptOwners(adopt: set<Locator>)
    | Reconcile(entries: map<Locator, Entry>)
    | RecoverySweep(sweep: Sweep)

  datatype Boot = Serving | Recovering(owner: Owner, stage: Recovery)

  /** A runtime generation that still holds leases, and the locators it was mounted with. */
  datatype Runtime = Runtime(owner: Owner, refs: set<Locator>)

  /** The last three fields are history: the configuration each generation held, the
      locators that were ever handed out and the changes that were ever begun. No action
      but the freshness check of a new candidate reads them. */
  datatype System = System(
    config: Option<Configuration>,
    modelLedger: seq<Entry>,
    voiceLedger: seq<Entry>,
    vault: set<Locator>,
    modelMutation: Mutation,
    voiceMutation: Mutation,
    tasks: map<nat, Task>,
    nextTask: nat,
    closed: set<Owner>,
    boot: Boot,
    runtimes: map<nat, Runtime>,
    mounted: map<Owner, nat>,
    nextSerial: nat,
    held: map<int, Configuration>,
    issued: set<Locator>,
    begun: set<Plan>)
  {
    function Ledger(o: Owner): seq<Entry> {
      if o == ModelOwner then modelLedger else voiceLedger
    }

    function WithLedger(o: Owner, es: seq<Entry>): System {
      if o == ModelOwner then this.(modelLedger := es) else this.(voiceLedger := es)
    }

    function Mutation(o: Owner): Mutation {
      if o == ModelOwner then modelMutation else voiceMutation
    }

    function WithMutation(o: Owner, m: Mutation): System {
      if o == ModelOwner then this.(modelMutation := m) else this.(voiceMutation := m)
    }
  }

  const Initial := System(None, [], [], {}, Idle, Idle, map[], 0, {}, Serving, map[], map[], 0, map[], {}, {})

  // -------------------------------------------------------------------------
  // Effects under faults
  // -------------------------------------------------------------------------

  function Written(es: seq<Entry>, r: LedgerResult, f: Fault): seq<Entry> {
    if r.Ok? && f != Refused then r.entries else es
  }

  predicate Succeeds(r: LedgerResult, f: Fault) {
    r.Ok? && f == Done
  }

  function Apply(s: System, o: Owner, r: LedgerResult, f: Fault): System {
    s.WithLedger(o, Written(s.Ledger(o), r, f))
  }

  function CleanupStep(s: System, o: Owner, c: Cleanup, f: Fault): (System, Cleanup) {
    match c
    case Rest => (s, Rest)
    case Due(l) =>
      var r := MarkCleanupAttempt(o, s.Ledger(o), l);
      (Apply(s, o, r, f), if Succeeds(r, f) then Attempted(l) else Rest)
    case Attempted(l) =>
      (if f == Refused then s else s.(vault := s.vault - {l}), if f == Done then Deleted(l) else Rest)
    case Deleted(l) =>
      (Apply(s, o, Acknowledge(o, s.Ledger(o), l), f), Rest)
  }

  function ConfigRefs(s: System, o: Owner): set<Locator> {
    if s.config.Some? then Refs(s.config.value, o) else {}
  }

  /** `None` means that the pass has ended. */
  function SweepStep(s: System, o: Owner, w: Sweep, pick: Locator, f: Fault): (System, Option<Sweep>) {
    match w
    case LoadConfig => (s, if f == Done then Some(ListPending(ConfigRefs(s, o))) else None)
    case ListPending(skip) => (s, if f == Done then Some(Cleaning(Pending(s.Ledger(o)) - skip, Rest)) else None)
    case Cleaning(todo, c) =>
      if c != Rest then
        var (s', c') := CleanupStep(s, o, c, f);
        (s', Some(Cleaning(todo, c')))
      else if todo == {} then (s, None)
      else if pick in todo then (s, Some(Cleaning(todo - {pick}, Due(pick))))
      else (s, Some(w))
  }

  // -------------------------------------------------------------------------
  // Actions
  // -------------------------------------------------------------------------

  datatype Action =
    | Install(draft: Draft, now: nat)
    | Recommit(draft: Draft, now: nat)
    | Begin(owner: Owner, expected: int, plan: Plan)
    | Advance(owner: Owner, pick: Locator, fault: Fault)
    | GiveUp(owner: Owner)
    | Mount(owner: Owner, up: bool)
    | Remount(owner: Owner, idle: bool)
    | Drain(serial: nat)
    | Maintain(id: nat, pick: Locator, fault: Fault)
    | DropTask(id: nat)
    | Close(owner: Owner)
    | Crash
    | Recover(pick: Locator, fault: Fault)
    | SkipRecovery

  /** First activation: setup has staged the draft's own credentials. */
  function DoInstall(s: System, d: Draft, now: nat): System {
    var r := CommitDraft(s.config, 0, d, now);
    if s.config.Some? || r.Committed? == false || AllRefs(r.configuration) * s.issued != {} then s
    else s.(config := Some(r.configuration),
            held := s.held[1 := r.configuration],
            vault := s.vault + AllRefs(r.configuration),
            issued := s.issued + AllRefs(r.configuration))
  }

  /** Another whole-draft commit that names the same credentials. */
  function DoRecommit(s: System, d: Draft, now: nat): System {
    if s.config.None? then s
    else
      var r := CommitDraft(s.config, s.config.value.generation, d, now);
      if !r.Committed? || Refs(r.configuration, ModelOwner) != Refs(s.config.value, ModelOwner)
         || Refs(r.configuration, VoiceOwner) != Refs(s.config.value, VoiceOwner) then s
      else s.(config := Some(r.configuration), held := s.held[r.configuration.generation := r.configuration])
  }

  function DoBegin(s: System, o: Owner, expected: int, p: Plan): System {
    if o in s.closed || s.Mutation(o) != Idle || PlanOwner(p) != o || !ValidPlan(p) || PlanRefs(p) * s.issued != {}
       || s.config.None? || s.config.value.generation != expected then s
    else
      var current := s.config.value;
      s.(issued := s.issued + PlanRefs(p), begun := s.begun + {p})
      .WithMutation(o, Adopting(current, p, ManagedRefs(current, o)))
  }

  function DoCommit(s: System, o: Owner, current: Configuration, p: Plan, staged: set<Locator>, f: Fault): System {
    var r := CommitPlan(s.config, current.generation, p);
    if !r.Committed? || f == Refused then s.WithMutation(o, Abandoning(staged, Rest))
    else
      var next := r.configuration;
      s.(config := Some(next), held := s.held[next.generation := next])
      .WithMutation(o,
                    if f == Done then Marking(current, p, next.generation, PlanRefs(p), {})
                    else Abandoning(staged, Rest))
  }

  /** The next durable effect of an owner's settings change. */
  function DoAdvance(s: System, o: Owner, pick: Locator, f: Fault): System {
    match s.Mutation(o)
    case Idle => s
    case Adopting(current, p, adopt) =>
      if adopt == {} then
        s.WithMutation(o,
                       if p.DisableVoice? && current.draft.voice.None? then Idle
                       else Staging(current, p, PlanRefs(p), {}))
      else if pick !in adopt then s
      else
        var r := AdoptCommitted(o, s.Ledger(o), pick, current.generation);
        Apply(s, o, r, f).WithMutation(o, if Succeeds(r, f) then Adopting(current, p, adopt - {pick}) else Idle)
    case Staging(current, p, todo, staged) =>
      if todo == {} then DoCommit(s, o, current, p, staged, f)
      else if pick !in todo then s
      else
        var r := Reserve(o, s.Ledger(o), pick, current.generation);
        Apply(s, o, r, f).WithMutation(o,
          if Succeeds(r, f) then Writing(current, p, pick, todo - {pick}, staged + {pick})
          else Abandoning(staged, Rest))
    case Writing(current, p, l, todo, staged) =>
      s.(vault := if f == Refused then s.vault else s.vault + {l})
      .WithMutation(o, if f == Done then Staging(current, p, todo, staged) else Abandoning(staged, Rest))
    case Marking(current, p, committed, mark, fallback) =>
      if pick in mark then
        var r := MarkCommitted(o, s.Ledger(o), pick, committed - 1, committed);
        Apply(s, o, r, f).WithMutation(o, Marking(current, p, committed, mark - {pick},
                                                  if Succeeds(r, f) || o == VoiceOwner then fallback
                                                  else fallback + {pick}))
      else if pick in fallback then
        Apply(s, o, AdoptCommitted(o, s.Ledger(o), pick, committed), f)
        .WithMutation(o, Marking(current, p, committed, mark, fallback - {pick}))
      else s
    case Abandoning(abandon, c) =>
      if c != Rest then
        var (s', c') := CleanupStep(s, o, c, f);
        s'.WithMutation(o, Abandoning(abandon, c'))
      else if abandon == {} then s.WithMutation(o, Idle)
      else if pick !in abandon then s
      else
        var r := AbandonStaged(o, s.Ledger(o), pick);
        Apply(s, o, r, f).WithMutation(o, Abandoning(abandon - {pick}, if Succeeds(r, f) then Due(pick) else Rest))
  }

  /** A cancellation or a failed probe, at any point before the commit. */
  function DoGiveUp(s: System, o: Owner): System {
    match s.Mutation(o)
    case Adopting(_, _, _) => s.WithMutation(o, Idle)
    case Staging(_, _, _, staged) => s.WithMutation(o, Abandoning(staged, Rest))
    case Writing(_, _, _, _, staged) => s.WithMutation(o, Abandoning(staged, Rest))
    case _ => s
  }

  /** The runtime swap after the commit. It hands out the drain receipt of the generation
      it replaces; without a swap (shutdown, failed gateway) nothing is retired. */
  function DoMount(s: System, o: Owner, up: bool): System {
    match s.Mutation(o)
    case Marking(current, p, _, mark, fallback) =>
      if mark + fallback != {} then s
      else if !up || (o in s.closed && !p.DisableVoice?) then s.WithMutation(o, Idle)
      else
        var previous := if o in s.mounted then Some(s.mounted[o]) else None;
        var t := s.(tasks := s.tasks[s.nextTask := AwaitDrain(o, ManagedRefs(current, o), previous)],
                    nextTask := s.nextTask + 1).WithMutation(o, Idle);
        if p.DisableVoice? then t.(mounted := s.mounted - {o})
        else t.(runtimes := s.runtimes[s.nextSerial := Runtime(o, PlanRefs(p))],
                mounted := s.mounted[o := s.nextSerial],
                nextSerial := s.nextSerial + 1)
    case _ => s
  }

  /** Start-up mount and retry: the configured credentials in a new runtime generation.
      `idle` says that the generation it replaces holds no lease and is gone at once. */
  function DoRemount(s: System, o: Owner, idle: bool): System {
    if o in s.closed || s.Mutation(o) != Idle || s.config.None? then s
    else
      var kept := if idle && o in s.mounted then s.runtimes - {s.mounted[o]} else s.runtimes;
      s.(runtimes := kept[s.nextSerial := Runtime(o, Refs(s.config.value, o))],
         mounted := s.mounted[o := s.nextSerial],
         nextSerial := s.nextSerial + 1)
  }

  function DoDrain(s: System, n: nat): System {
    if n in s.runtimes && (forall o :: o in s.mounted ==> s.mounted[o] != n) then s.(runtimes := s.runtimes - {n})
    else s
  }

  /** Which of the replaced locators still own a generation, and which one. */
  function ActiveGenerations(es: seq<Entry>, replaced: set<Locator>): map<Locator, int> {
    var v := View(es);
    map l | l in replaced && l in v && v[l].phase == Active
    && v[l].committedGeneration.Some? :: v[l].committedGeneration.value
  }

  function DoMaintain(s: System, id: nat, pick: Locator, f: Fault): System {
    if id !in s.tasks then s
    else
      match s.tasks[id]
      case AwaitDrain(o, replaced, serial) =>
        if serial.Some? && serial.value in s.runtimes then s
        else s.(tasks := s.tasks[id := Retiring(o, ActiveGenerations(s.Ledger(o), replaced))])
      case Retiring(o, retire) =>
        if retire == map[] then s.(tasks := s.tasks[id := Sweeping(o, LoadConfig)])
        else if pick !in retire then s
        else
          var r := Retire(o, s.Ledger(o), pick, retire[pick]);
          var t := Apply(s, o, r, f);
          if Succeeds(r, f) then t.(tasks := s.tasks[id := Retiring(o, retire - {pick})])
          else t.(tasks := s.tasks - {id})
      case Sweeping(o, w) =>
        var (t, w') := SweepStep(s, o, w, pick, f);
        t.(tasks := if w'.Some? then s.tasks[id := Sweeping(o, w'.value)] else s.tasks - {id})
  }

  function StartRecovery(s: System, o: Owner): Boot {
    Recovering(o, AdoptOwners(if s.config.Some? then ManagedRefs(s.config.value, o) else {}))
  }

  function NextRecovery(s: System, o: Owner): Boot {
    if o == ModelOwner then StartRecovery(s, VoiceOwner) else Serving
  }

  function DoCrash(s: System): System {
    s.(modelMutation := Idle, voiceMutation := Idle, tasks := map[], closed := {},
       runtimes := map[], mounted := map[], boot := StartRecovery(s, ModelOwner))
  }

  /** What start-up does about one ledger entry. */
  function ReconcileEntry(s: System, o: Owner, e: Entry, f: Fault): System {
    var es := s.Ledger(o);
    if e.phase == Staged then
      Apply(s, o,
            if e.ref in ConfigRefs(s, o)
            then MarkCommitted(o, es, e.ref, e.expectedGeneration, e.expectedGeneration + 1)
                  else AbandonStaged(o, es, e.ref), f)
    else if e.phase == Active && e.ref !in ConfigRefs(s, o) && e.committedGeneration.Some? then
      Apply(s, o, Retire(o, es, e.ref, e.committedGeneration.value), f)
    else s
  }

  function DoRecover(s: System, o: Owner, stage: Recovery, pick: Locator, f: Fault): System {
    match stage
    case AdoptOwners(adopt) =>
      if adopt == {} then s.(boot := Recovering(o, Reconcile(View(s.Ledger(o)))))
      else if pick !in adopt || s.config.None? then s
      else Apply(s, o, AdoptCommitted(o, s.Ledger(o), pick, s.config.value.generation),
                 f).(boot := Recovering(o, AdoptOwners(adopt - {pick})))
    case Reconcile(entries) =>
      if entries == map[] then s.(boot := Recovering(o, RecoverySweep(LoadConfig)))
      else if pick !in entries then s
      else ReconcileEntry(s.(boot := Recovering(o, Reconcile(entries - {pick}))), o, entries[pick], f)
    case RecoverySweep(w) =>
      var (t, w') := SweepStep(s, o, w, pick, f);
      t.(boot := if w'.Some? then Recovering(o, RecoverySweep(w'.value)) else NextRecovery(s, o))
  }

  function Step(s: System, a: Action): System {
    if a.Crash? then DoCrash(s)
    else if s.boot.Recovering? then
      match a
      case Recover(pick, f) => DoRecover(s, s.boot.owner, s.boot.stage, pick, f)
      case SkipRecovery => s.(boot := NextRecovery(s, s.boot.owner))
      case _ => s
    else
      match a
      case Install(d, now) => DoInstall(s, d, now)
      case Recommit(d, now) => DoRecommit(s, d, now)
      case Begin(o, e, p) => DoBegin(s, o, e, p)
      case Advance(o, pick, f) => DoAdvance(s, o, pick, f)
      case GiveUp(o) => DoGiveUp(s, o)
      case Mount(o, up) => DoMount(s, o, up)
      case Remount(o, idle) => DoRemount(s, o, idle)
      case Drain(n) => DoDrain(s, n)
      case Maintain(id, pick, f) => DoMaintain(s, id, pick, f)
      case DropTask(id) => s.(tasks := s.tasks - {id})
      case Close(o) => s.(closed := s.closed + {o})
      case _ => s
  }

  /** The state after a run. */
  function Exec(s: System, actions: seq<Action>): System
    decreases |actions|
  {
    if actions == [] then s else Exec(Step(s, actions[0]), actions[1..])
  }

  // -------------------------------------------------------------------------
  // The two hypotheses about a run
  // -------------------------------------------------------------------------

  /** A configuration write that lands although the call throws, while the change holds
      staged credentials that its failure path will delete. */
  predicate LosesCommit(s: System, a: Action) {
    && a.Advance? && a.fault == Lost && s.boot == Serving
    && s.Mutation(a.owner).Staging? && s.Mutation(a.owner).todo == {} && s.Mutation(a.owner).staged != {}
    && CommitPlan(s.config, s.Mutation(a.owner).current.generation, s.Mutation(a.owner).plan).Committed?
  }

  /** A retry that mounts a credential again while an older generation still leases it. */
  predicate Overlaps(s: System, a: Action) {
    && a.Remount? && !a.idle && a.owner in s.mounted && s.mounted[a.owner] in s.runtimes && s.config.Some?
    && s.runtimes[s.mounted[a.owner]].refs * Refs(s.config.value, a.owner) != {}
  }

  /** Hypotheses of a run: no commit is lost and, when `strict`, no retry overlaps. */
  predicate Sound(s: System, a: Action, strict: bool) {
    !LosesCommit(s, a) && (strict ==> !Overlaps(s, a))
  }

  predicate SoundRun(s: System, actions: seq<Action>, strict: bool)
    decreases |actions|
  {
    actions == [] || (Sound(s, actions[0], strict) && SoundRun(Step(s, actions[0]), actions[1..], strict))
  }
}
