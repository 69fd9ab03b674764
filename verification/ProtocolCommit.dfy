/** Committing a change and giving one up. */
module ProtocolCommit {
  import opened Wrappers
  import opened Configurations
  import opened CleanupLedgers
  import opened CredentialProtocol
  import opened ProtocolInvariant
  import opened ProtocolSteps

  // -------------------------------------------------------------------------
  // A change of configuration
  // -------------------------------------------------------------------------

  lemma PlanRefsFollowOwner(p: Plan)
    requires ValidPlan(p)
    ensures forall l :: l in PlanRefs(p) ==> l.Owner() == PlanOwner(p) && l.managed
  {}

  /** What a commit does to the configuration's sections. */
  lemma CommitShape(c: Configuration, expected: int, p: Plan)
    requires ValidConfiguration(c) && ValidPlan(p) && CommitPlan(Some(c), expected, p).Committed?
    ensures var n := CommitPlan(Some(c), expected, p).configuration;
            && ValidConfiguration(n) && expected == c.generation && n.generation == c.generation + 1
            && Refs(n, PlanOwner(p)) == PlanRefs(p) && Refs(n, Other(PlanOwner(p))) == Refs(c, Other(PlanOwner(p)))
  {}

  function Landed(s: System, n: Configuration, o: Owner, m: Mutation): System {
    s.(config := Some(n), held := s.held[n.generation := n]).WithMutation(o, m)
  }

  predicate PreCommit(m: Mutation) {
    m.Adopting? || m.Staging? || m.Writing?
  }

  lemma PreFacts(s: System, strict: bool)
    requires Inv(s, strict)
    ensures ConfigOk(Ctx(s, strict))
    ensures forall o :: PreCommit(s.Mutation(o)) ==> PreOk(Ctx(s, strict), o, s.Mutation(o).current, s.Mutation(o).plan)
  {}

  /** The context after owner `o` commits plan `p`, while the other owner stands at `w`. */
  function CommitCtx(k: Context, n: Configuration, w: Mutation): Context {
    k.(config := Some(n), held := k.held[n.generation := n], pre := Candidates(w))
  }

  lemma CommitContext(k: Context, o: Owner, current: Configuration, p: Plan, w: Mutation, n: Configuration)
    requires ConfigOk(k) && PreOk(k, o, current, p) && k.pre == PlanRefs(p) + Candidates(w)
    requires PreCommit(w) ==> PreOk(k, Other(o), w.current, w.plan)
    requires CommitPlan(k.config, current.generation, p) == Committed(n)
    ensures var k' := CommitCtx(k, n, w);
            && current == k.config.value && n.generation == current.generation + 1 && ValidConfiguration(current)
            && Refs(n, o) == PlanRefs(p) && Refs(n, Other(o)) == Refs(current, Other(o))
            && Extends(k, k') && ConfigOk(k')
            && (forall l :: Named(k', l) ==> Named(k, l) || l in PlanRefs(p))
            && (forall l :: l in PlanRefs(p) ==> Named(k', l) && HeldAt(k', n.generation, l) && !Named(k, l))
            && (forall l :: l in Refs(current, o) ==> Replaced(k', l) && l.Owner() == o)
            && (forall l :: l in Candidates(w) ==> !Named(k', l) && l !in k'.used)
            && n.generation !in k.held
  {
    assert current == k.config.value;
    CommitShape(current, current.generation, p);
    PlanRefsFollowOwner(p);
    RefsFollowTracks(current);
    if PreCommit(w) {
      PlanRefsFollowOwner(w.plan);
    }
  }

  lemma LandedContext(s: System, strict: bool, n: Configuration, o: Owner, m: Mutation)
    requires Candidates(m) == {}
    ensures var k, k' := Ctx(s, strict), Ctx(Landed(s, n, o, m), strict);
            && k' == CommitCtx(k, n, s.Mutation(Other(o))) && k'.config == Some(n)
            && k'.pre == Candidates(s.Mutation(Other(o)))
            && (n.generation !in k.held ==> forall g :: g in k.held ==> g in k'.held && k'.held[g] == k.held[g])
  {}

  lemma CommitLands(s: System, strict: bool, o: Owner, p: Plan, n: Configuration, m: Mutation)
    requires Inv(s, strict) && s.boot == Serving && s.Mutation(o).Staging?
    requires s.Mutation(o).plan == p && s.Mutation(o).todo == {}
    requires CommitPlan(s.config, s.Mutation(o).current.generation, p) == Committed(n)
    requires m == Marking(s.Mutation(o).current, p, n.generation, PlanRefs(p), {}) || (m == Abandoning({}, Rest))
    requires Candidates(m) == {}
    ensures Inv(Landed(s, n, o, m), strict)
  {
    hide *;
    var t := Landed(s, n, o, m);
    var w := s.Mutation(Other(o));
    var k, k' := Ctx(s, strict), Ctx(t, strict);
    var current := s.Mutation(o).current;
    var v, v2 := View(s.Ledger(o)), View(s.Ledger(Other(o)));
    PartFacts(s, strict, o);
    PreFacts(s, strict);
    StagingFacts(k, o, v, s.vault, s.Mutation(o));
    CommitContext(k, o, current, p, w, n);
    LandedContext(s, strict, n, o, m);
    LandedFrame(s, n, o, m);
    PlanRefsFollowOwner(p);
    CommitMutation(k, k', o, v, s.vault, current, p, s.Mutation(o).staged, n);
    CommitEntries(k, k', o, v, v2, s.vault, s.Mutation(o));
    MutationExtends(k, k', Other(o), v2, s.vault, s.vault, w);
    TasksExtend(k, k', s.vault, s.vault, s.tasks);
    CommitVault(s, o, p, n, m);
    if strict {
      CommitRuntimes(s, o, p, n, m);
    }
    ServingOk(k', View(t.Ledger(BootOwner(t.boot))), s.vault);
    Assemble(t, strict, k', o);
  }

  lemma LandedFrame(s: System, n: Configuration, o: Owner, m: Mutation)
    ensures var t := Landed(s, n, o, m);
            && t.config == Some(n) && t.Ledger(o) == s.Ledger(o) && t.Ledger(Other(o)) == s.Ledger(Other(o))
            && t.Mutation(o) == m && t.Mutation(Other(o)) == s.Mutation(Other(o))
            && t.vault == s.vault && t.tasks == s.tasks && t.boot == s.boot
  {}

  lemma StagingFacts(k: Context, o: Owner, v: map<Locator, Entry>, vault: set<Locator>, m: Mutation)
    requires m.Staging? && m.todo == {} && MutationOk(k, o, v, vault, m)
    ensures m.staged == PlanRefs(m.plan) && Candidates(m) == PlanRefs(m.plan) && PlanRefs(m.plan) <= vault
            && ValidPlan(m.plan) && PlanOwner(m.plan) == o
    ensures PreOk(k, o, m.current, m.plan)
    ensures forall l :: l in ManagedRefs(m.current, o) ==> l in v && l.Owner() == o
  {
    RefsFollowTracks(m.current);
  }

  lemma CommitMutation(k: Context, k': Context, o: Owner, v: map<Locator, Entry>, vault: set<Locator>,
                       current: Configuration, p: Plan, staged: set<Locator>, n: Configuration)
    requires MutationOk(k, o, v, vault, Staging(current, p, {}, staged))
    requires k'.config == Some(n) && Refs(n, o) == PlanRefs(p) && n.generation == current.generation + 1
    requires forall l :: l in PlanRefs(p) ==> HeldAt(k', n.generation, l)
    requires forall l :: l in Refs(current, o) ==> Replaced(k', l) && l.Owner() == o
    ensures MutationOk(k', o, v, vault, Marking(current, p, n.generation, PlanRefs(p), {}))
    ensures MutationOk(k', o, v, vault, Abandoning({}, Rest))
  {}

  lemma CommitEntries(k: Context, k': Context, o: Owner, v: map<Locator, Entry>, v2: map<Locator, Entry>,
                      vault: set<Locator>, m: Mutation)
    requires m.Staging? && m.todo == {} && MutationOk(k, o, v, vault, m)
    requires EntriesOk(k, o, v) && EntriesOk(k, Other(o), v2)
    requires Extends(k, k') && forall l :: Named(k', l) ==> Named(k, l) || l in PlanRefs(m.plan)
    requires forall l :: l in PlanRefs(m.plan) ==> l.Owner() == o && HeldAt(k', m.current.generation + 1, l)
    ensures EntriesOk(k', o, v) && EntriesOk(k', Other(o), v2)
  {
    EntriesExtend(k, k', o, v);
    forall l | l in v2
      ensures l !in PlanRefs(m.plan)
    {
      assert EntryOk(k, Other(o), v2[l]);
    }
    EntriesExtend(k, k', Other(o), v2);
  }

  lemma CommitVault(s: System, o: Owner, p: Plan, n: Configuration, m: Mutation)
    requires VaultOk(s) && s.config.Some? && ValidConfiguration(s.config.value)
    requires Refs(n, o) == PlanRefs(p) && Refs(n, Other(o)) == Refs(s.config.value, Other(o))
    requires PlanRefs(p) <= s.vault
    requires forall l :: l in ManagedRefs(s.config.value, o) ==> l.Owner() == o && l in View(s.Ledger(o))
    ensures VaultOk(Landed(s, n, o, m))
  {
    var t := Landed(s, n, o, m);
    forall l | l in t.vault
      ensures Accounted(t, l)
    {
      assert Accounted(s, l);
      if Named(Ctx(s, false), l) && !Named(Ctx(t, false), l) && l.managed {
        assert l in ManagedRefs(s.config.value, o);
      }
    }
  }

  lemma CommitRuntimes(s: System, o: Owner, p: Plan, n: Configuration, m: Mutation)
    requires RuntimesOk(s) && s.config.Some? && ValidConfiguration(s.config.value) && s.Mutation(o).Staging?
    requires s.Mutation(o).plan == p && s.Mutation(o).current == s.config.value
    requires Refs(n, o) == PlanRefs(p) && Refs(n, Other(o)) == Refs(s.config.value, Other(o))
    requires m == Marking(s.config.value, p, n.generation, PlanRefs(p), {}) || m == Abandoning({}, Rest)
    ensures RuntimesOk(Landed(s, n, o, m))
  {
    RefsFollowTracks(s.config.value);
    forall r | r in s.runtimes && s.runtimes[r].refs * ManagedRefs(s.config.value, o) != {}
      ensures o in s.mounted && s.mounted[o] == r
    {
      var l :| l in s.runtimes[r].refs * ManagedRefs(s.config.value, o);
      assert l in s.runtimes[r].refs * Refs(s.config.value, o) && l.Owner() == s.runtimes[r].owner;
    }
  }

  /** The two ways a commit ends, as changes of state. */
  lemma CommitOutcome(s: System, o: Owner, m: Mutation, f: Fault)
    requires m == s.Mutation(o) && m.Staging? && m.todo == {}
    ensures var r := CommitPlan(s.config, m.current.generation, m.plan);
            var t := DoCommit(s, o, m.current, m.plan, m.staged, f);
            if !r.Committed? || f == Refused then t == s.WithMutation(o, Abandoning(m.staged, Rest))
            else if f == Done
                 then t == Landed(s, r.configuration, o,
                                  Marking(m.current, m.plan, r.configuration.generation, PlanRefs(m.plan), {}))
            else t == Landed(s, r.configuration, o, Abandoning(m.staged, Rest))
  {}

  /** After a commit the change only marks, or has nothing staged to abandon. */
  lemma NoCandidates(m: Mutation)
    ensures !PreCommit(m) ==> Candidates(m) == {}
  {}

  lemma CommitKeeps(s: System, strict: bool, o: Owner, f: Fault)
    requires Inv(s, strict) && s.boot == Serving && s.Mutation(o).Staging? && s.Mutation(o).todo == {}
    requires var m := s.Mutation(o);
             !(f == Lost && m.staged != {} && CommitPlan(s.config, m.current.generation, m.plan).Committed?)
    ensures var m := s.Mutation(o); Inv(DoCommit(s, o, m.current, m.plan, m.staged, f), strict)
  {
    hide *;
    var m := s.Mutation(o);
    var r := CommitPlan(s.config, m.current.generation, m.plan);
    CommitOutcome(s, o, m, f);
    if !r.Committed? || f == Refused {
      StagedGivenUp(s, strict, o);
    } else {
      var n := r.configuration;
      var m' := if f == Done then Marking(m.current, m.plan, n.generation, PlanRefs(m.plan), {})
          else Abandoning({}, Rest);
      NotPreCommit(m');
      NoCandidates(m');
      CommitLands(s, strict, o, m.plan, n, m');
    }
  }

  lemma NotPreCommit(m: Mutation)
    ensures PreCommit(m) <==> m.Adopting? || m.Staging? || m.Writing?
  {}

  lemma AbandoningOk(k: Context, o: Owner, v: map<Locator, Entry>, vault: set<Locator>, staged: set<Locator>,
                     c: Cleanup)
    requires forall l :: l in staged ==> OwnDoomed(k, o, l)
    requires CleanupOk(k, o, vault, c)
    ensures MutationOk(k, o, v, vault, Abandoning(staged, c))
  {}

  lemma IdleOk(k: Context, o: Owner, v: map<Locator, Entry>, vault: set<Locator>)
    ensures MutationOk(k, o, v, vault, Idle) && CleanupOk(k, o, vault, Rest)
    ensures Candidates(Idle) == {}
  {}

  lemma NotMarking(rs: map<nat, Runtime>, mounted: map<Owner, nat>, o: Owner, m: Mutation)
    requires !m.Marking?
    ensures MarkingRuntimesOk(rs, mounted, o, m)
  {}

  /** A change that is given up before its commit: its candidates are doomed from then on. */
  lemma StagedGivenUp(s: System, strict: bool, o: Owner)
    requires Inv(s, strict) && s.boot == Serving && (s.Mutation(o).Staging? || s.Mutation(o).Writing?)
    ensures Inv(s.WithMutation(o, Abandoning(s.Mutation(o).staged, Rest)), strict)
  {
    hide *;
    var m := Abandoning(s.Mutation(o).staged, Rest);
    var k' := Ctx(s.WithMutation(o, m), strict);
    NotPreCommit(m);
    NoCandidates(m);
    CandidatesDoomed(s, strict, o);
    IdleOk(k', o, View(s.Ledger(o)), s.vault);
    AbandoningOk(k', o, View(s.Ledger(o)), s.vault, s.Mutation(o).staged, Rest);
    NotMarking(s.runtimes, s.mounted, o, m);
    MutationChange(s, strict, o, m);
  }

  /** A change that ends without anything staged. */
  lemma GoesIdle(s: System, strict: bool, o: Owner)
    requires Inv(s, strict) && s.boot == Serving
    ensures Inv(s.WithMutation(o, Idle), strict)
  {
    hide *;
    var k' := Ctx(s.WithMutation(o, Idle), strict);
    IdleOk(k', o, View(s.Ledger(o)), s.vault);
    NotMarking(s.runtimes, s.mounted, o, Idle);
    MutationChange(s, strict, o, Idle);
  }

  lemma GiveUpShape(s: System, o: Owner)
    ensures var m := s.Mutation(o);
            DoGiveUp(s, o) == if m.Adopting? then s.WithMutation(o, Idle)
                              else if m.Staging? || m.Writing? then s.WithMutation(o, Abandoning(m.staged, Rest))
                              else s
  {}

  lemma GiveUpKeeps(s: System, strict: bool, o: Owner)
    requires Inv(s, strict) && s.boot == Serving
    ensures Inv(DoGiveUp(s, o), strict)
  {
    hide *;
    var m := s.Mutation(o);
    GiveUpShape(s, o);
    if m.Adopting? {
      GoesIdle(s, strict, o);
    } else if m.Staging? || m.Writing? {
      StagedGivenUp(s, strict, o);
    }
  }

  lemma CandidatesDoomed(s: System, strict: bool, o: Owner)
    requires Inv(s, strict) && (s.Mutation(o).Staging? || s.Mutation(o).Writing?)
    ensures forall l, m :: l in s.Mutation(o).staged && Candidates(m) == {} ==>
            OwnDoomed(Ctx(s.WithMutation(o, m), strict), o, l)
  {
    var m, w := s.Mutation(o), s.Mutation(Other(o));
    PreFacts(s, strict);
    PlanRefsFollowOwner(m.plan);
    MutationFacts(s, strict, o);
    assert m.staged <= PlanRefs(m.plan);
    if PreCommit(w) {
      PlanRefsFollowOwner(w.plan);
    }
    GivenUp(s, strict, o);
  }

  lemma GivenUp(s: System, strict: bool, o: Owner)
    requires var m, w := s.Mutation(o), s.Mutation(Other(o));
             && PreCommit(m) && PreOk(Ctx(s, strict), o, m.current, m.plan)
             && (forall l :: l in PlanRefs(m.plan) ==> l.Owner() == o && l.managed)
             && (forall l :: l in Candidates(w) ==> l.Owner() == Other(o))
    ensures forall l, m :: l in PlanRefs(s.Mutation(o).plan) && Candidates(m) == {} ==>
            OwnDoomed(Ctx(s.WithMutation(o, m), strict), o, l)
  {}
}
