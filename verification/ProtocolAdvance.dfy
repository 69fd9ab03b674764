/** A settings change advances: every effect on its way keeps the invariant. */
module ProtocolAdvance {
  import opened Wrappers
  import opened Configurations
  import opened CleanupLedgers
  import opened CredentialProtocol
  import opened ProtocolInvariant
  import opened ProtocolSteps
  import opened ProtocolCommit

  lemma ApplyFrame(s: System, strict: bool, o: Owner, r: LedgerResult, f: Fault)
    ensures var t := Apply(s, o, r, f);
            && t.Mutation(o) == s.Mutation(o) && t.Mutation(Other(o)) == s.Mutation(Other(o))
            && t.boot == s.boot && t.vault == s.vault && t.config == s.config && t.tasks == s.tasks
            && t.runtimes == s.runtimes && t.mounted == s.mounted && t.issued == s.issued && t.held == s.held
            && Ctx(t, strict) == Ctx(s, strict) && (Succeeds(r, f) ==> t.Ledger(o) == r.entries)
  {}

  /** A change that keeps its candidates moves on in an unchanged context. */
  lemma MovesOn(s: System, strict: bool, o: Owner, m: Mutation)
    requires Inv(s, strict) && s.boot == Serving && Candidates(m) == Candidates(s.Mutation(o))
    requires MutationOk(Ctx(s, strict), o, View(s.Ledger(o)), s.vault, m)
    requires strict ==> MarkingRuntimesOk(s.runtimes, s.mounted, o, m)
    ensures Inv(s.WithMutation(o, m), strict)
  {
    hide *;
    SameContext(s, strict, o, m);
    MutationChange(s, strict, o, m);
  }

  lemma SameContext(s: System, strict: bool, o: Owner, m: Mutation)
    requires Candidates(m) == Candidates(s.Mutation(o))
    ensures Ctx(s.WithMutation(o, m), strict) == Ctx(s, strict)
  {}

  // -------------------------------------------------------------------------
  // Adopting
  // -------------------------------------------------------------------------

  lemma AdoptingFacts(k: Context, o: Owner, v: map<Locator, Entry>, vault: set<Locator>, m: Mutation)
    requires m.Adopting? && MutationOk(k, o, v, vault, m)
    ensures forall l :: l in m.adopt ==> l.Owner() == o && Named(k, l) && HeldAt(k, m.current.generation, l)
  {
    RefsFollowTracks(m.current);
  }

  lemma AdoptedOne(k: Context, o: Owner, v: map<Locator, Entry>, vault: set<Locator>, m: Mutation, l: Locator)
    requires m.Adopting? && MutationOk(k, o, v, vault, m) && ActiveIn(v, l)
    ensures MutationOk(k, o, v, vault, m.(adopt := m.adopt - {l}))
    ensures Candidates(m.(adopt := m.adopt - {l})) == Candidates(m)
  {}

  lemma AdoptedAll(k: Context, o: Owner, v: map<Locator, Entry>, vault: set<Locator>, m: Mutation)
    requires m.Adopting? && m.adopt == {} && MutationOk(k, o, v, vault, m)
    ensures MutationOk(k, o, v, vault, Staging(m.current, m.plan, PlanRefs(m.plan), {}))
    ensures Candidates(Staging(m.current, m.plan, PlanRefs(m.plan), {})) == Candidates(m)
  {}

  lemma AdoptingShape(s: System, o: Owner, pick: Locator, f: Fault)
    requires s.Mutation(o).Adopting?
    ensures var m := s.Mutation(o);
            var r := AdoptCommitted(o, s.Ledger(o), pick, m.current.generation);
            var t := DoAdvance(s, o, pick, f);
            if m.adopt == {} then
              t == s.WithMutation(o, Idle) || t == s.WithMutation(o, Staging(m.current, m.plan, PlanRefs(m.plan), {}))
            else if pick !in m.adopt then t == s
            else t == Apply(s, o, r, f).WithMutation(o, if Succeeds(r, f) then m.(adopt := m.adopt - {pick}) else Idle)
  {}

  lemma AdoptingKeeps(s: System, strict: bool, o: Owner, pick: Locator, f: Fault)
    requires Inv(s, strict) && s.boot == Serving && s.Mutation(o).Adopting?
    ensures Inv(DoAdvance(s, o, pick, f), strict)
  {
    hide *;
    var k, m := Ctx(s, strict), s.Mutation(o);
    PartFacts(s, strict, o);
    AdoptingShape(s, o, pick, f);
    if m.adopt == {} {
      AdoptedAll(k, o, View(s.Ledger(o)), s.vault, m);
      var m' := Staging(m.current, m.plan, PlanRefs(m.plan), {});
      NotMarking(s.runtimes, s.mounted, o, m');
      GoesIdle(s, strict, o);
      MovesOn(s, strict, o, m');
    } else if pick in m.adopt {
      var r := AdoptCommitted(o, s.Ledger(o), pick, m.current.generation);
      var t := Apply(s, o, r, f);
      AdoptingFacts(k, o, View(s.Ledger(o)), s.vault, m);
      ServingSettled(s, o, pick);
      AdoptKeeps(s, strict, o, pick, m.current.generation, f);
      ApplyFrame(s, strict, o, r, f);
      if Succeeds(r, f) {
        var m' := m.(adopt := m.adopt - {pick});
        PartFacts(t, strict, o);
        AdoptedOne(k, o, View(t.Ledger(o)), t.vault, m, pick);
        NotMarking(t.runtimes, t.mounted, o, m');
        MovesOn(t, strict, o, m');
      } else {
        GoesIdle(t, strict, o);
      }
    }
  }

  lemma ServingSettled(s: System, o: Owner, l: Locator)
    requires s.boot == Serving
    ensures Settled(s.boot, o, l)
  {}

  // -------------------------------------------------------------------------
  // Staging and writing
  // -------------------------------------------------------------------------

  lemma StagingPick(k: Context, o: Owner, v: map<Locator, Entry>, vault: set<Locator>, m: Mutation)
    requires m.Staging? && MutationOk(k, o, v, vault, m)
    ensures forall l :: l in m.todo ==> l in k.issued && l.Owner() == o && !Named(k, l)
  {
    PlanRefsFollowOwner(m.plan);
  }

  lemma ReservedOne(k: Context, o: Owner, v: map<Locator, Entry>, vault: set<Locator>, m: Mutation, l: Locator)
    requires m.Staging? && l in m.todo && MutationOk(k, o, v, vault, m) && StagedIn(v, l, m.current.generation)
    ensures var m' := Writing(m.current, m.plan, l, m.todo - {l}, m.staged + {l});
            MutationOk(k, o, v, vault, m') && Candidates(m') == Candidates(m)
  {}

  lemma StagingShape(s: System, o: Owner, pick: Locator, f: Fault)
    requires s.Mutation(o).Staging?
    ensures var m := s.Mutation(o);
            var r := Reserve(o, s.Ledger(o), pick, m.current.generation);
            DoAdvance(s, o, pick, f) ==
              if m.todo == {} then DoCommit(s, o, m.current, m.plan, m.staged, f)
              else if pick !in m.todo then s
              else Apply(s, o, r, f).WithMutation(o,
                     if Succeeds(r, f) then Writing(m.current, m.plan, pick, m.todo - {pick}, m.staged + {pick})
                     else Abandoning(m.staged, Rest))
  {}

  lemma StagingKeeps(s: System, strict: bool, o: Owner, pick: Locator, f: Fault)
    requires Inv(s, strict) && s.boot == Serving && s.Mutation(o).Staging?
    requires var m := s.Mutation(o);
             m.todo == {} ==>
             !(f == Lost && m.staged != {} && CommitPlan(s.config, m.current.generation, m.plan).Committed?)
    ensures Inv(DoAdvance(s, o, pick, f), strict)
  {
    hide *;
    var k, m := Ctx(s, strict), s.Mutation(o);
    StagingShape(s, o, pick, f);
    if m.todo == {} {
      CommitKeeps(s, strict, o, f);
    } else if pick in m.todo {
      var r := Reserve(o, s.Ledger(o), pick, m.current.generation);
      var t := Apply(s, o, r, f);
      PartFacts(s, strict, o);
      StagingPick(k, o, View(s.Ledger(o)), s.vault, m);
      ServingSettled(s, o, pick);
      ReserveKeeps(s, strict, o, pick, m.current.generation, f);
      ApplyFrame(s, strict, o, r, f);
      if Succeeds(r, f) {
        var m' := Writing(m.current, m.plan, pick, m.todo - {pick}, m.staged + {pick});
        PartFacts(t, strict, o);
        ReservedOne(k, o, View(t.Ledger(o)), t.vault, m, pick);
        NotMarking(t.runtimes, t.mounted, o, m');
        MovesOn(t, strict, o, m');
      } else {
        StagedGivenUp(t, strict, o);
      }
    }
  }

  lemma WritingFacts(k: Context, o: Owner, v: map<Locator, Entry>, vault: set<Locator>, m: Mutation)
    requires m.Writing? && MutationOk(k, o, v, vault, m)
    ensures !Doomed(k, m.writing) && m.writing in v && m.writing.Owner() == o
  {
    PlanRefsFollowOwner(m.plan);
  }

  lemma WroteOne(k: Context, o: Owner, v: map<Locator, Entry>, vault: set<Locator>, m: Mutation)
    requires m.Writing? && m.writing in vault && MutationOk(k, o, v, vault, m)
    ensures var m' := Staging(m.current, m.plan, m.todo, m.staged);
            MutationOk(k, o, v, vault, m') && Candidates(m') == Candidates(m)
  {}

  lemma WritingShape(s: System, o: Owner, pick: Locator, f: Fault)
    requires s.Mutation(o).Writing?
    ensures var m := s.Mutation(o);
            var t := if f == Refused then s else s.(vault := s.vault + {m.writing});
            DoAdvance(s, o, pick, f) ==
              t.WithMutation(o,
                             if f == Done then Staging(m.current, m.plan, m.todo, m.staged)
                             else Abandoning(m.staged, Rest))
  {
    assert s == s.(vault := s.vault);
  }

  lemma StoredFrame(s: System, strict: bool, o: Owner, l: Locator)
    ensures var t := s.(vault := s.vault + {l});
            && Ctx(t, strict) == Ctx(s, strict) && Extends(Ctx(s, strict), Ctx(s, strict))
            && t.Ledger(o) == s.Ledger(o) && t.Ledger(Other(o)) == s.Ledger(Other(o))
            && t.Mutation(o) == s.Mutation(o) && t.Mutation(Other(o)) == s.Mutation(Other(o))
            && t.boot == s.boot && t.tasks == s.tasks && t.runtimes == s.runtimes && t.mounted == s.mounted
  {}

  lemma StoredVault(s: System, strict: bool, o: Owner, l: Locator)
    requires VaultOk(s) && (strict ==> RuntimesOk(s)) && l in View(s.Ledger(o)) && l.Owner() == o
    ensures VaultOk(s.(vault := s.vault + {l})) && (strict ==> RuntimesOk(s.(vault := s.vault + {l})))
  {
    var t := s.(vault := s.vault + {l});
    forall x | x in t.vault
      ensures Accounted(t, x)
    {
      assert x != l ==> Accounted(s, x);
    }
  }

  /** A secret whose locator is ledgered and not doomed may enter the vault. */
  lemma StoreKeeps(s: System, strict: bool, o: Owner, l: Locator)
    requires Inv(s, strict) && s.boot == Serving && l.Owner() == o
    requires l in View(s.Ledger(o)) && !Doomed(Ctx(s, strict), l)
    ensures Inv(s.(vault := s.vault + {l}), strict)
  {
    hide *;
    var k := Ctx(s, strict);
    var t := s.(vault := s.vault + {l});
    PartFacts(s, strict, o);
    StoredFrame(s, strict, o, l);
    CandidateFacts(k, o, View(s.Ledger(o)), s.vault, s.Mutation(o));
    CandidateFacts(k, Other(o), View(s.Ledger(Other(o))), s.vault, s.Mutation(Other(o)));
    MutationExtends(k, k, o, View(s.Ledger(o)), s.vault, t.vault, s.Mutation(o));
    MutationExtends(k, k, Other(o), View(s.Ledger(Other(o))), s.vault, t.vault, s.Mutation(Other(o)));
    TasksExtend(k, k, s.vault, t.vault, s.tasks);
    ServingOk(k, View(t.Ledger(BootOwner(t.boot))), t.vault);
    ServingAtRest(t);
    StoredVault(s, strict, o, l);
    Assemble(t, strict, k, o);
  }

  lemma WritingKeeps(s: System, strict: bool, o: Owner, pick: Locator, f: Fault)
    requires Inv(s, strict) && s.boot == Serving && s.Mutation(o).Writing?
    ensures Inv(DoAdvance(s, o, pick, f), strict)
  {
    hide *;
    var k, m := Ctx(s, strict), s.Mutation(o);
    var t := if f == Refused then s else s.(vault := s.vault + {m.writing});
    WritingShape(s, o, pick, f);
    PartFacts(s, strict, o);
    WritingFacts(k, o, View(s.Ledger(o)), s.vault, m);
    StoreKeeps(s, strict, o, m.writing);
    StoredFrame(s, strict, o, m.writing);
    if f == Done {
      var m' := Staging(m.current, m.plan, m.todo, m.staged);
      PartFacts(t, strict, o);
      WroteOne(k, o, View(t.Ledger(o)), t.vault, m);
      NotMarking(t.runtimes, t.mounted, o, m');
      MovesOn(t, strict, o, m');
    } else {
      StagedGivenUp(t, strict, o);
    }
  }

  // -------------------------------------------------------------------------
  // Marking
  // -------------------------------------------------------------------------

  lemma MarkingFacts(k: Context, o: Owner, v: map<Locator, Entry>, vault: set<Locator>, m: Mutation)
    requires m.Marking? && MutationOk(k, o, v, vault, m)
    ensures forall l :: l in m.mark + m.fallback ==>
              l.Owner() == o && Named(k, l) && HeldAt(k, m.committed, l) && l in v
              && v[l].expectedGeneration + 1 == m.committed
  {
    PlanRefsFollowOwner(m.plan);
    assert forall l :: l in PlanRefs(m.plan) ==> l in Refs(k.config.value, o);
  }

  /** The same commit with other locators still to mark. */
  predicate MarksFewer(m: Mutation, m': Mutation) {
    m.Marking? && m'.Marking? && m' == m.(mark := m'.mark, fallback := m'.fallback)
    && m'.mark + m'.fallback <= m.mark + m.fallback
  }

  lemma MarkedOne(k: Context, o: Owner, v: map<Locator, Entry>, vault: set<Locator>, m: Mutation, m': Mutation)
    requires MutationOk(k, o, v, vault, m) && MarksFewer(m, m')
    ensures MutationOk(k, o, v, vault, m') && Candidates(m') == Candidates(m)
  {}

  lemma MarkingRuntimes(s: System, o: Owner, m: Mutation, m': Mutation)
    requires RuntimesOk(s) && m == s.Mutation(o) && MarksFewer(m, m')
    ensures MarkingRuntimesOk(s.runtimes, s.mounted, o, m')
  {}

  lemma MarksOn(t: System, strict: bool, o: Owner, m': Mutation)
    requires Inv(t, strict) && t.boot == Serving && MarksFewer(t.Mutation(o), m')
    ensures Inv(t.WithMutation(o, m'), strict)
  {
    hide *;
    PartFacts(t, strict, o);
    MarkedOne(Ctx(t, strict), o, View(t.Ledger(o)), t.vault, t.Mutation(o), m');
    if strict {
      MarkingRuntimes(t, o, t.Mutation(o), m');
    }
    MovesOn(t, strict, o, m');
  }

  lemma MarkingShape(s: System, o: Owner, pick: Locator, f: Fault)
    requires s.Mutation(o).Marking?
    ensures var m := s.Mutation(o);
            var r := MarkCommitted(o, s.Ledger(o), pick, m.committed - 1, m.committed);
            var q := AdoptCommitted(o, s.Ledger(o), pick, m.committed);
            var t := DoAdvance(s, o, pick, f);
            if pick in m.mark then
              exists m' :: MarksFewer(m, m') && t == Apply(s, o, r, f).WithMutation(o, m')
            else if pick in m.fallback then
              exists m' :: MarksFewer(m, m') && t == Apply(s, o, q, f).WithMutation(o, m')
            else t == s
  {
    var m := s.Mutation(o);
    var m' := DoAdvance(s, o, pick, f).Mutation(o);
    assert MarksFewer(m, m');
  }

  lemma MarkingKeeps(s: System, strict: bool, o: Owner, pick: Locator, f: Fault)
    requires Inv(s, strict) && s.boot == Serving && s.Mutation(o).Marking?
    ensures Inv(DoAdvance(s, o, pick, f), strict)
  {
    hide *;
    var k, m := Ctx(s, strict), s.Mutation(o);
    PartFacts(s, strict, o);
    MarkingShape(s, o, pick, f);
    MarkingFacts(k, o, View(s.Ledger(o)), s.vault, m);
    ServingSettled(s, o, pick);
    if pick in m.mark {
      var r := MarkCommitted(o, s.Ledger(o), pick, m.committed - 1, m.committed);
      MarkKeeps(s, strict, o, pick, m.committed, f);
      ApplyFrame(s, strict, o, r, f);
      var m' :| MarksFewer(m, m') && DoAdvance(s, o, pick, f) == Apply(s, o, r, f).WithMutation(o, m');
      MarksOn(Apply(s, o, r, f), strict, o, m');
    } else if pick in m.fallback {
      var q := AdoptCommitted(o, s.Ledger(o), pick, m.committed);
      AdoptKeeps(s, strict, o, pick, m.committed, f);
      ApplyFrame(s, strict, o, q, f);
      var m' :| MarksFewer(m, m') && DoAdvance(s, o, pick, f) == Apply(s, o, q, f).WithMutation(o, m');
      MarksOn(Apply(s, o, q, f), strict, o, m');
    }
  }

  // -------------------------------------------------------------------------
  // Abandoning
  // -------------------------------------------------------------------------

  lemma AbandoningFacts(k: Context, o: Owner, v: map<Locator, Entry>, vault: set<Locator>, m: Mutation)
    requires m.Abandoning? && MutationOk(k, o, v, vault, m)
    ensures (forall l :: l in m.abandon ==> OwnDoomed(k, o, l)) && CleanupOk(k, o, vault, m.cleanup)
    ensures Candidates(m) == {} && forall a, c :: Candidates(Abandoning(a, c)) == {}
  {}

  lemma DueOk(k: Context, o: Owner, vault: set<Locator>, l: Locator)
    requires OwnDoomed(k, o, l)
    ensures CleanupOk(k, o, vault, Due(l)) && CleanupOk(k, o, vault, Rest)
  {}

  lemma AbandoningShape(s: System, o: Owner, pick: Locator, f: Fault)
    requires s.Mutation(o).Abandoning?
    ensures var m := s.Mutation(o);
            var r := AbandonStaged(o, s.Ledger(o), pick);
            var c := CleanupStep(s, o, m.cleanup, f);
            DoAdvance(s, o, pick, f) ==
              if m.cleanup != Rest then c.0.WithMutation(o, Abandoning(m.abandon, c.1))
              else if m.abandon == {} then s.WithMutation(o, Idle)
              else if pick !in m.abandon then s
              else Apply(s, o, r, f).WithMutation(o,
                                                  Abandoning(m.abandon - {pick},
                                                             if Succeeds(r, f) then Due(pick) else Rest))
  {}

  lemma AbandonsOn(t: System, strict: bool, o: Owner, abandon: set<Locator>, c: Cleanup)
    requires Inv(t, strict) && t.boot == Serving && t.Mutation(o).Abandoning? && abandon <= t.Mutation(o).abandon
    requires CleanupOk(Ctx(t, strict), o, t.vault, c)
    ensures Inv(t.WithMutation(o, Abandoning(abandon, c)), strict)
  {
    hide *;
    var k := Ctx(t, strict);
    PartFacts(t, strict, o);
    AbandoningFacts(k, o, View(t.Ledger(o)), t.vault, t.Mutation(o));
    AbandoningOk(k, o, View(t.Ledger(o)), t.vault, abandon, c);
    NotMarking(t.runtimes, t.mounted, o, Abandoning(abandon, c));
    MovesOn(t, strict, o, Abandoning(abandon, c));
  }

  lemma CleanupStays(s: System, o: Owner, c: Cleanup, f: Fault)
    ensures var t := CleanupStep(s, o, c, f).0;
            t.Mutation(o) == s.Mutation(o) && t.boot == s.boot && t.tasks == s.tasks
  {}

  lemma ServingNotReconciling(s: System)
    requires s.boot == Serving
    ensures s.boot.Recovering? ==> !s.boot.stage.Reconcile?
  {}

  lemma AbandoningKeeps(s: System, strict: bool, o: Owner, pick: Locator, f: Fault)
    requires Inv(s, strict) && s.boot == Serving && s.Mutation(o).Abandoning?
    ensures Inv(DoAdvance(s, o, pick, f), strict)
  {
    hide *;
    var k, m := Ctx(s, strict), s.Mutation(o);
    PartFacts(s, strict, o);
    AbandoningShape(s, o, pick, f);
    AbandoningFacts(k, o, View(s.Ledger(o)), s.vault, m);
    if m.cleanup != Rest {
      var c := CleanupStep(s, o, m.cleanup, f);
      CleanupKeeps(s, strict, o, m.cleanup, f);
      CleanupFrame(s, strict, o, m.cleanup, f);
      CleanupStays(s, o, m.cleanup, f);
      AbandonsOn(c.0, strict, o, m.abandon, c.1);
    } else if m.abandon == {} {
      GoesIdle(s, strict, o);
    } else if pick in m.abandon {
      var r := AbandonStaged(o, s.Ledger(o), pick);
      ServingSettled(s, o, pick);
      AbandonKeeps(s, strict, o, pick, f);
      ApplyFrame(s, strict, o, r, f);
      DueOk(k, o, s.vault, pick);
      AbandonsOn(Apply(s, o, r, f), strict, o, m.abandon - {pick}, if Succeeds(r, f) then Due(pick) else Rest);
    }
  }

  /** One durable effect of a settings change, unless it loses its own commit. */
  lemma AdvanceKeeps(s: System, strict: bool, o: Owner, pick: Locator, f: Fault)
    requires Inv(s, strict) && s.boot == Serving && !LosesCommit(s, Advance(o, pick, f))
    ensures Inv(DoAdvance(s, o, pick, f), strict)
  {
    NotLost(s, o, pick, f);
    hide *;
    match s.Mutation(o)
    case Idle => IdleStays(s, o, pick, f);
    case Adopting(_, _, _) => AdoptingKeeps(s, strict, o, pick, f);
    case Staging(_, _, _, _) => StagingKeeps(s, strict, o, pick, f);
    case Writing(_, _, _, _, _) => WritingKeeps(s, strict, o, pick, f);
    case Marking(_, _, _, _, _) => MarkingKeeps(s, strict, o, pick, f);
    case Abandoning(_, _) => AbandoningKeeps(s, strict, o, pick, f);
  }

  lemma IdleStays(s: System, o: Owner, pick: Locator, f: Fault)
    requires s.Mutation(o) == Idle
    ensures DoAdvance(s, o, pick, f) == s
  {}

  lemma NotLost(s: System, o: Owner, pick: Locator, f: Fault)
    requires s.boot == Serving && !LosesCommit(s, Advance(o, pick, f))
    ensures var m := s.Mutation(o);
            m.Staging? && m.todo == {} ==>
              !(f == Lost && m.staged != {} && CommitPlan(s.config, m.current.generation, m.plan).Committed?)
  {}
}
