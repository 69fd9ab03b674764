/** The inductive invariant of the credential protocol. */
module ProtocolInvariant {
  import opened Wrappers
  import opened Configurations
  import opened CleanupLedgers
  import opened CredentialProtocol

  // -------------------------------------------------------------------------
  // What the parts of the invariant see of the whole state
  // -------------------------------------------------------------------------

  /** `pre` holds the candidate locators of changes that may still commit and `used` the
      locators of undrained runtime generations (empty unless the run is strict). */
  datatype Context = Context(config: Option<Configuration>, held: map<int, Configuration>,
                             issued: set<Locator>, pre: set<Locator>, used: set<Locator>)

  function Candidates(m: Mutation): set<Locator> {
    if m.Adopting? || m.Staging? || m.Writing? then PlanRefs(m.plan) else {}
  }

  function UsedRefs(s: System): set<Locator> {
    set n, l | n in s.runtimes && l in s.runtimes[n].refs :: l
  }

  function Ctx(s: System, strict: bool): Context {
    Context(s.config, s.held, s.issued, Candidates(s.modelMutation) + Candidates(s.voiceMutation),
            if strict then UsedRefs(s) else {})
  }

  predicate Named(k: Context, l: Locator) {
    k.config.Some? && l in AllRefs(k.config.value)
  }

  /** The configuration does not name this locator and never will again. */
  predicate Replaced(k: Context, l: Locator) {
    l in k.issued && !Named(k, l) && l !in k.pre
  }

  /** Replaced, and no undrained runtime generation was mounted with it. */
  predicate Doomed(k: Context, l: Locator) {
    Replaced(k, l) && l !in k.used
  }

  /** Generation `g` named `l`. */
  predicate HeldAt(k: Context, g: int, l: Locator) {
    g in k.held && l in AllRefs(k.held[g])
  }

  // -------------------------------------------------------------------------
  // Parts
  // -------------------------------------------------------------------------

  predicate ConfigOk(k: Context) {
    && (k.config.Some? ==>
          && ValidConfiguration(k.config.value)
          && k.config.value.generation in k.held && k.held[k.config.value.generation] == k.config.value
          && AllRefs(k.config.value) <= k.issued)
    && (forall g :: g in k.held ==> k.config.Some? && 1 <= g <= k.config.value.generation
                                     && ValidConfiguration(k.held[g]) && k.held[g].generation == g)
  }

  /** One ledger entry: well formed; pending only when doomed; never attempted while staged;
      a committed generation is one that named the locator; a staged entry the configuration
      names was committed by the generation after the one it expected. */
  predicate EntryOk(k: Context, o: Owner, e: Entry) {
    && ValidEntry(o, e)
    && e.ref in k.issued
    && (e.phase == PendingCleanup ==> Doomed(k, e.ref))
    && (e.committedGeneration.Some? ==> HeldAt(k, e.committedGeneration.value, e.ref))
    && (e.phase == Staged ==> e.attempts == 0)
    && (e.phase == Staged && Named(k, e.ref) ==> HeldAt(k, e.expectedGeneration + 1, e.ref))
  }

  ghost predicate EntriesOk(k: Context, o: Owner, v: map<Locator, Entry>) {
    forall l :: l in v ==> v[l].ref == l && EntryOk(k, o, v[l])
  }

  ghost predicate LedgerOk(k: Context, o: Owner, es: seq<Entry>) {
    && Unique(es) && |es| <= MAX_ENTRIES
    && EntriesOk(k, o, View(es))
  }

  predicate OwnDoomed(k: Context, o: Owner, l: Locator) {
    Doomed(k, l) && l.Owner() == o && l.managed
  }

  predicate CleanupOk(k: Context, o: Owner, vault: set<Locator>, c: Cleanup) {
    c != Rest ==> OwnDoomed(k, o, c.l) && (c.Deleted? ==> c.l !in vault)
  }

  predicate SweepOk(k: Context, o: Owner, vault: set<Locator>, w: Sweep) {
    w.Cleaning? ==> (forall l :: l in w.todo ==> OwnDoomed(k, o, l)) && CleanupOk(k, o, vault, w.cleanup)
  }

  predicate ActiveIn(v: map<Locator, Entry>, l: Locator) {
    l in v && v[l].phase == Active
  }

  predicate StagedIn(v: map<Locator, Entry>, l: Locator, expected: int) {
    l in v && v[l].phase == Staged && v[l].expectedGeneration == expected
  }

  /** A change that has not committed yet: its own section is still what it loaded. */
  predicate PreOk(k: Context, o: Owner, current: Configuration, p: Plan) {
    && PlanOwner(p) == o && ValidPlan(p)
    && (forall l :: l in PlanRefs(p) ==> l in k.issued && l in k.pre && !Named(k, l) && l !in k.used)
    && k.config.Some? && ValidConfiguration(current)
    && Refs(k.config.value, o) == Refs(current, o)
    && current.generation in k.held && k.held[current.generation] == current
  }

  ghost predicate MutationOk(k: Context, o: Owner, v: map<Locator, Entry>, vault: set<Locator>, m: Mutation) {
    match m
    case Idle => true
    case Adopting(current, p, adopt) =>
      && PreOk(k, o, current, p)
      && adopt <= ManagedRefs(current, o)
      && (forall l :: l in ManagedRefs(current, o) - adopt ==> ActiveIn(v, l))
    case Staging(current, p, todo, staged) =>
      && PreOk(k, o, current, p)
      && todo + staged == PlanRefs(p)
      && (forall l :: l in ManagedRefs(current, o) ==> ActiveIn(v, l))
      && (forall l :: l in staged ==> StagedIn(v, l, current.generation) && l in vault)
    case Writing(current, p, w, todo, staged) =>
      && PreOk(k, o, current, p)
      && todo + staged == PlanRefs(p) && w in staged
      && (forall l :: l in ManagedRefs(current, o) ==> ActiveIn(v, l))
      && (forall l :: l in staged ==> StagedIn(v, l, current.generation))
      && (forall l :: l in staged ==> l == w || l in vault)
    case Marking(current, p, committed, mark, fallback) =>
      && PlanOwner(p) == o && ValidPlan(p) && committed >= 1
      && k.config.Some? && Refs(k.config.value, o) == PlanRefs(p)
      && mark + fallback <= PlanRefs(p)
      && (forall l :: l in mark + fallback ==>
          HeldAt(k, committed, l) && l in v && v[l].expectedGeneration + 1 == committed)
      && (forall l :: l in ManagedRefs(current, o) ==> Replaced(k, l) && l.Owner() == o)
    case Abandoning(abandon, c) =>
      && (forall l :: l in abandon ==> OwnDoomed(k, o, l))
      && CleanupOk(k, o, vault, c)
  }

  predicate TaskOk(k: Context, vault: set<Locator>, t: Task) {
    match t
    case AwaitDrain(o, replaced, _) => forall l :: l in replaced ==> Replaced(k, l) && l.Owner() == o && l.managed
    case Retiring(o, retire) => forall l :: l in retire ==> OwnDoomed(k, o, l)
    case Sweeping(o, w) => SweepOk(k, o, vault, w)
  }

  /** Start-up works through a snapshot of the ledger; what it has not come to yet is
      still as it was read. */
  predicate BootOk(k: Context, v: map<Locator, Entry>, vault: set<Locator>, b: Boot) {
    match b
    case Serving => true
    case Recovering(o, AdoptOwners(adopt)) => forall l :: l in adopt ==> Named(k, l) && l.Owner() == o && l.managed
    case Recovering(o, Reconcile(entries)) => forall l :: l in entries ==> l in v && v[l] == entries[l]
    case Recovering(o, RecoverySweep(w)) => SweepOk(k, o, vault, w)
  }

  function BootOwner(b: Boot): Owner {
    if b.Recovering? then b.owner else ModelOwner
  }

  /** Start-up has already dealt with this locator, or does not look at snapshots now. */
  predicate Settled(b: Boot, o: Owner, l: Locator) {
    b.Recovering? && b.stage.Reconcile? && b.owner == o ==> l !in b.stage.entries
  }

  /** Everything the vault still holds is named by the configuration or ledgered, except a
      locator that the settings code cannot parse and therefore never owned. */
  ghost predicate Accounted(s: System, l: Locator) {
    Named(Ctx(s, false), l) || l in View(s.Ledger(l.Owner())) || !l.managed
  }

  ghost predicate VaultOk(s: System) {
    && (s.config.Some? ==> AllRefs(s.config.value) <= s.vault)
    && (forall l :: l in s.vault ==> Accounted(s, l))
  }

  predicate SerialsOk(rs: map<nat, Runtime>, mounted: map<Owner, nat>, next: nat) {
    && (forall n :: n in rs ==> n < next)
    && (forall o :: o in mounted ==> mounted[o] in rs && rs[mounted[o]].owner == o)
  }

  predicate UseOk(issued: set<Locator>, vault: set<Locator>, pre: set<Locator>, r: Runtime) {
    forall l :: l in r.refs ==> l in issued && l in vault && l !in pre && l.Owner() == r.owner
  }

  predicate NoSharing(rs: map<nat, Runtime>) {
    forall n, m :: n in rs && m in rs && n != m ==> rs[n].refs !! rs[m].refs
  }

  /** A used locator that the configuration names belongs to the mounted generation. */
  predicate NamedMounted(config: Option<Configuration>, rs: map<nat, Runtime>, mounted: map<Owner, nat>) {
    config.Some? ==> forall n :: n in rs && rs[n].refs * Refs(config.value, rs[n].owner) != {}
                       ==> rs[n].owner in mounted && mounted[rs[n].owner] == n
  }

  /** Between commit and swap the replaced locators are used by the mounted generation
      alone and the new ones by none. */
  predicate MarkingRuntimesOk(rs: map<nat, Runtime>, mounted: map<Owner, nat>, o: Owner, m: Mutation) {
    m.Marking? ==>
      && (forall n :: n in rs && rs[n].refs * ManagedRefs(m.current, o) != {} ==> o in mounted && mounted[o] == n)
      && (forall n :: n in rs ==> rs[n].refs !! PlanRefs(m.plan))
  }

  /** A drain receipt covers every generation that still uses what it will retire. */
  predicate ReceiptOk(rs: map<nat, Runtime>, t: Task) {
    t.AwaitDrain? ==> forall n :: n in rs && rs[n].refs * t.replaced != {} ==> t.serial == Some(n)
  }

  /** Runtime generations: which locators they use and what a receipt covers. */
  ghost predicate RuntimesOk(s: System) {
    && SerialsOk(s.runtimes, s.mounted, s.nextSerial)
    && (forall n :: n in s.runtimes ==>
        UseOk(s.issued, s.vault, Candidates(s.modelMutation) + Candidates(s.voiceMutation), s.runtimes[n]))
    && NoSharing(s.runtimes)
    && NamedMounted(s.config, s.runtimes, s.mounted)
    && MarkingRuntimesOk(s.runtimes, s.mounted, ModelOwner, s.modelMutation)
    && MarkingRuntimesOk(s.runtimes, s.mounted, VoiceOwner, s.voiceMutation)
    && (forall id :: id in s.tasks ==> ReceiptOk(s.runtimes, s.tasks[id]))
  }

  ghost predicate AtRestWhileRecovering(s: System) {
    s.boot.Recovering? ==>
    s.modelMutation == Idle && s.voiceMutation == Idle && s.tasks == map[] && s.runtimes == map[] && s.mounted == map[]
  }

  ghost predicate Inv(s: System, strict: bool) {
    var k := Ctx(s, strict);
    && ConfigOk(k)
    && LedgerOk(k, ModelOwner, s.modelLedger) && LedgerOk(k, VoiceOwner, s.voiceLedger)
    && MutationOk(k, ModelOwner, View(s.modelLedger), s.vault, s.modelMutation)
    && MutationOk(k, VoiceOwner, View(s.voiceLedger), s.vault, s.voiceMutation)
    && (forall id :: id in s.tasks ==> TaskOk(k, s.vault, s.tasks[id]))
    && BootOk(k, View(s.Ledger(BootOwner(s.boot))), s.vault, s.boot)
    && AtRestWhileRecovering(s)
    && VaultOk(s)
    && (strict ==> RuntimesOk(s))
  }

  // -------------------------------------------------------------------------
  // A context may move on without disturbing what is already settled
  // -------------------------------------------------------------------------

  ghost predicate Extends(k: Context, k': Context) {
    && k.issued <= k'.issued
    && (forall l :: Replaced(k, l) ==> Replaced(k', l))
    && (forall l :: Doomed(k, l) ==> Doomed(k', l))
    && (forall g, l :: HeldAt(k, g, l) ==> HeldAt(k', g, l))
  }

  lemma EntriesExtend(k: Context, k': Context, o: Owner, v: map<Locator, Entry>)
    requires EntriesOk(k, o, v) && Extends(k, k')
    requires forall l :: l in v && v[l].phase == Staged && Named(k', l) && !Named(k, l)
               ==> HeldAt(k', v[l].expectedGeneration + 1, l)
    ensures EntriesOk(k', o, v)
  {
    forall l | l in v
      ensures EntryOk(k', o, v[l])
    {
      assert EntryOk(k, o, v[l]);
    }
  }

  lemma TasksExtend(k: Context, k': Context, vault: set<Locator>, vault': set<Locator>, tasks: map<nat, Task>)
    requires forall id :: id in tasks ==> TaskOk(k, vault, tasks[id])
    requires Extends(k, k') && forall l :: l in vault' ==> l in vault || !Doomed(k, l)
    ensures forall id :: id in tasks ==> TaskOk(k', vault', tasks[id])
  {
    forall id | id in tasks
      ensures TaskOk(k', vault', tasks[id])
    {
      assert TaskOk(k, vault, tasks[id]);
    }
  }

  // -------------------------------------------------------------------------
  // One ledger write about one locator
  // -------------------------------------------------------------------------

  /** Whether a settings change can tell that the entry of `l` was rewritten. */
  ghost predicate Unnoticed(k: Context, m: Mutation, v: map<Locator, Entry>, v': map<Locator, Entry>, l: Locator) {
    || Doomed(k, l) || m == Idle || m.Abandoning? || l !in v
    || ( && l in v' && v'[l].expectedGeneration == v[l].expectedGeneration
         && (v[l].phase == Active ==> v'[l].phase == Active)
         && !(m.Staging? && l in m.staged) && !(m.Writing? && l in m.staged))
  }

  lemma MutationUnnoticed(k: Context, o: Owner, v: map<Locator, Entry>, v': map<Locator, Entry>, l: Locator,
                          vault: set<Locator>, m: Mutation)
    requires MutationOk(k, o, v, vault, m) && AgreeExcept(v, v', l) && Unnoticed(k, m, v, v', l)
    ensures MutationOk(k, o, v', vault, m)
  {
    if m.Adopting? || m.Staging? || m.Writing? {
      forall x | x in ManagedRefs(m.current, o) && ActiveIn(v, x)
        ensures ActiveIn(v', x)
      {
        assert Named(k, x);
        assert x != l ==> SameAt(v, v', x);
      }
    }
    if m.Staging? || m.Writing? {
      forall x | x in m.staged
        ensures StagedIn(v', x, m.current.generation)
      {
        assert x in PlanRefs(m.plan) && x in k.pre;
        assert x != l ==> SameAt(v, v', x);
      }
    }
    if m.Marking? {
      forall x | x in m.mark + m.fallback
        ensures x in v' && v'[x].expectedGeneration == v[x].expectedGeneration
      {
        assert x in PlanRefs(m.plan) && Named(k, x);
        assert x != l ==> SameAt(v, v', x);
      }
    }
  }

  lemma EntriesUntouched(k: Context, o: Owner, v: map<Locator, Entry>, v': map<Locator, Entry>, l: Locator)
    requires EntriesOk(k, o, v) && AgreeExcept(v, v', l)
    requires l in v' ==> v'[l].ref == l && EntryOk(k, o, v'[l])
    ensures EntriesOk(k, o, v')
  {
    forall x | x in v'
      ensures v'[x].ref == x && EntryOk(k, o, v'[x])
    {
      assert x != l ==> SameAt(v, v', x);
    }
  }

  lemma BootUntouched(k: Context, o: Owner, v: map<Locator, Entry>, v': map<Locator, Entry>, l: Locator,
                      b: map<Locator, Entry>, b': map<Locator, Entry>, vault: set<Locator>, boot: Boot)
    requires AgreeExcept(v, v', l) && Settled(boot, o, l) && BootOk(k, b, vault, boot)
    requires if BootOwner(boot) == o then b == v && b' == v' else b' == b
    ensures BootOk(k, b', vault, boot)
  {
    if boot.Recovering? && boot.stage.Reconcile? {
      forall x | x in boot.stage.entries
        ensures x in b' && b'[x] == boot.stage.entries[x]
      {
        assert BootOwner(boot) == o ==> SameAt(v, v', x);
      }
    }
  }

  lemma VaultUntouched(s: System, o: Owner, l: Locator, es': seq<Entry>)
    requires VaultOk(s) && l.Owner() == o
    requires AgreeExcept(View(s.Ledger(o)), View(es'), l) && (l !in View(es') ==> l !in s.vault)
    ensures VaultOk(s.WithLedger(o, es'))
  {
    var t := s.WithLedger(o, es');
    forall x | x in t.vault
      ensures Accounted(t, x)
    {
      assert Accounted(s, x);
      assert x != l ==> SameAt(View(s.Ledger(o)), View(es'), x);
    }
  }
}
