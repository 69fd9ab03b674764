/** The remaining actions of the running product keep the invariant. */
module ProtocolActions {
  import opened Wrappers
  import opened Configurations
  import opened CleanupLedgers
  import opened CredentialProtocol
  import opened ProtocolInvariant
  import opened ProtocolSteps
  import opened ProtocolCommit

  // -------------------------------------------------------------------------
  // The context moves on around an owner's change
  // -------------------------------------------------------------------------

  /** Everything but the context and the change of `o` stays; the new context settles no
      less, names nothing that was ledgered as staged and leaves the other owner alone. */
  lemma ContextMoves(s: System, t: System, strict: bool, o: Owner)
    requires Inv(s, strict) && s.boot == Serving
    requires t.modelLedger == s.modelLedger && t.voiceLedger == s.voiceLedger && t.boot == s.boot
    requires t.Ledger(o) == s.Ledger(o) && t.Ledger(Other(o)) == s.Ledger(Other(o))
             && t.Mutation(Other(o)) == s.Mutation(Other(o))
    requires forall id :: id in t.tasks ==> TaskOk(Ctx(t, strict), t.vault, t.tasks[id])
    requires Extends(Ctx(s, strict), Ctx(t, strict)) && ConfigOk(Ctx(t, strict))
    requires forall x, l :: l in View(s.Ledger(x)) && View(s.Ledger(x))[l].phase == Staged
                            && Named(Ctx(t, strict), l) ==>
             Named(Ctx(s, strict), l)
    requires var k, k', w := Ctx(s, strict), Ctx(t, strict), s.Mutation(Other(o));
             && Candidates(w) <= k'.pre && (forall l :: l in Candidates(w) ==> !Named(k', l) && l !in k'.used)
             && (k.config.Some? ==>
                 k'.config.Some? && Refs(k'.config.value, Other(o)) == Refs(k.config.value, Other(o)))
             && (forall g :: g in k.held ==> g in k'.held && k'.held[g] == k.held[g])
             && s.vault <= t.vault && (forall l :: l in t.vault && l !in s.vault ==> !Doomed(k, l))
    requires MutationOk(Ctx(t, strict), o, View(t.Ledger(o)), t.vault, t.Mutation(o))
    requires VaultOk(t) && (strict ==> RuntimesOk(t))
    ensures Inv(t, strict)
  {
    hide *;
    var k, k' := Ctx(s, strict), Ctx(t, strict);
    PartFacts(s, strict, o);
    LedgerMoves(k, k', o, s.Ledger(o));
    LedgerMoves(k, k', Other(o), s.Ledger(Other(o)));
    MutationExtends(k, k', Other(o), View(s.Ledger(Other(o))), s.vault, t.vault, s.Mutation(Other(o)));
    ServingOk(k', View(t.Ledger(BootOwner(t.boot))), t.vault);
    ServingAtRest(t);
    Assemble(t, strict, k', o);
  }

  lemma LedgerMoves(k: Context, k': Context, o: Owner, es: seq<Entry>)
    requires LedgerOk(k, o, es) && Extends(k, k')
    requires forall l :: l in View(es) && View(es)[l].phase == Staged && Named(k', l) ==> Named(k, l)
    ensures LedgerOk(k', o, es)
  {
    EntriesExtend(k, k', o, View(es));
  }

  lemma IssuedFacts(s: System, strict: bool)
    requires Inv(s, strict)
    ensures forall o, l :: l in View(s.Ledger(o)) ==> l in s.issued && l.Owner() == o
    ensures s.config.Some? ==>
            AllRefs(s.config.value) <= s.issued && AllRefs(s.config.value) <= s.vault
            && ValidConfiguration(s.config.value)
    ensures strict ==> UsedRefs(s) <= s.issued
    ensures forall o :: Candidates(s.Mutation(o)) <= s.issued
  {
    forall o, l | l in View(s.Ledger(o))
      ensures l in s.issued && l.Owner() == o
    {
      assert EntryOk(Ctx(s, strict), o, View(s.Ledger(o))[l]);
    }
    forall o
      ensures Candidates(s.Mutation(o)) <= s.issued
    {
      CandidateFacts(Ctx(s, strict), o, View(s.Ledger(o)), s.vault, s.Mutation(o));
    }
  }

  // -------------------------------------------------------------------------
  // A change begins
  // -------------------------------------------------------------------------

  predicate Begins(s: System, o: Owner, expected: int, p: Plan) {
    && o !in s.closed && s.Mutation(o) == Idle && PlanOwner(p) == o && ValidPlan(p) && PlanRefs(p) !! s.issued
    && s.config.Some? && s.config.value.generation == expected
  }

  lemma BeginShape(s: System, o: Owner, expected: int, p: Plan)
    ensures DoBegin(s, o, expected, p) ==
            if Begins(s, o, expected, p) then
              s.(issued := s.issued + PlanRefs(p), begun := s.begun + {p})
              .WithMutation(o, Adopting(s.config.value, p, ManagedRefs(s.config.value, o)))
            else s
  {}

  lemma BeginFrame(s: System, o: Owner, expected: int, p: Plan, strict: bool)
    requires Begins(s, o, expected, p)
    ensures var t := DoBegin(s, o, expected, p);
            && t.modelLedger == s.modelLedger && t.voiceLedger == s.voiceLedger
            && t.Ledger(o) == s.Ledger(o) && t.Ledger(Other(o)) == s.Ledger(Other(o))
            && t.Mutation(Other(o)) == s.Mutation(Other(o))
            && t.config == s.config && t.vault == s.vault && t.tasks == s.tasks && t.boot == s.boot
            && t.Mutation(o) == Adopting(s.config.value, p, ManagedRefs(s.config.value, o))
            && Ctx(t, strict) == Ctx(s, strict).(issued := s.issued + PlanRefs(p),
                                                 pre := PlanRefs(p) + Candidates(s.Mutation(Other(o))))
            && Ctx(s, strict).pre == Candidates(s.Mutation(Other(o)))
  {}

  lemma BeginContext(k: Context, k': Context, o: Owner, p: Plan, w: Mutation, c: Configuration, v: map<Locator, Entry>,
                     vault: set<Locator>)
    requires ConfigOk(k) && k.config == Some(c) && k.pre == Candidates(w)
    requires k' == k.(issued := k.issued + PlanRefs(p), pre := PlanRefs(p) + Candidates(w))
    requires PlanOwner(p) == o && ValidPlan(p) && PlanRefs(p) !! k.issued && k.used <= k.issued
    ensures Extends(k, k') && ConfigOk(k')
    ensures MutationOk(k', o, v, vault, Adopting(c, p, ManagedRefs(c, o)))
    ensures forall l :: Named(k', l) <==> Named(k, l)
  {}

  lemma BeginRuntimes(s: System, o: Owner, expected: int, p: Plan)
    requires RuntimesOk(s) && Begins(s, o, expected, p)
    ensures RuntimesOk(DoBegin(s, o, expected, p))
  {}

  lemma UsedIssued(s: System, strict: bool)
    requires strict ==> UsedRefs(s) <= s.issued
    ensures Ctx(s, strict).used <= s.issued && Ctx(s, strict).issued == s.issued && Ctx(s, strict).config == s.config
  {}

  lemma BeginKeeps(s: System, strict: bool, o: Owner, expected: int, p: Plan)
    requires Inv(s, strict) && s.boot == Serving
    ensures Inv(DoBegin(s, o, expected, p), strict)
  {
    BeginShape(s, o, expected, p);
    if Begins(s, o, expected, p) {
      assert PlanOwner(p) == o && ValidPlan(p) && PlanRefs(p) !! s.issued && s.config.Some?;
      hide *;
      var t := DoBegin(s, o, expected, p);
      var k, k' := Ctx(s, strict), Ctx(t, strict);
      PartFacts(s, strict, o);
      BeginFrame(s, o, expected, p, strict);
      IssuedFacts(s, strict);
      UsedIssued(s, strict);
      BeginContext(k, k', o, p, s.Mutation(Other(o)), s.config.value, View(t.Ledger(o)), t.vault);
      CandidateFacts(k, Other(o), View(s.Ledger(Other(o))), s.vault, s.Mutation(Other(o)));
      TasksExtend(k, k', s.vault, t.vault, s.tasks);
      VaultSame(s, t);
      if strict {
        BeginRuntimes(s, o, expected, p);
      }
      ContextMoves(s, t, strict, o);
    }
  }

  // -------------------------------------------------------------------------
  // Whole-draft commits
  // -------------------------------------------------------------------------

  lemma NothingBeforeInstall(s: System, strict: bool, o: Owner)
    requires Inv(s, strict) && s.config.None?
    ensures s.held == map[] && (s.Mutation(o).Idle? || s.Mutation(o).Abandoning?) && Ctx(s, strict).pre == {}
  {
    MutationFacts(s, strict, ModelOwner);
    MutationFacts(s, strict, VoiceOwner);
    assert ConfigOk(Ctx(s, strict));
    assert forall g :: g in Ctx(s, strict).held ==> Ctx(s, strict).config.Some?;
  }

  function Installed(s: System, n: Configuration): System {
    s.(config := Some(n), held := s.held[n.generation := n], vault := s.vault + AllRefs(n),
       issued := s.issued + AllRefs(n))
  }

  lemma InstallShape(s: System, d: Draft, now: nat)
    ensures var t := DoInstall(s, d, now);
            t == s || (s.config.None? && exists n :: ValidConfiguration(n) && n.generation == 1
                                                     && AllRefs(n) !! s.issued && t == Installed(s, n))
  {
    var r := CommitDraft(s.config, 0, d, now);
    if r.Committed? {
      assert r.configuration.generation == 1 && ValidConfiguration(r.configuration);
    }
  }

  lemma InstalledFrame(s: System, n: Configuration, strict: bool)
    ensures var t := Installed(s, n);
            && t.modelLedger == s.modelLedger && t.voiceLedger == s.voiceLedger
            && (forall o :: t.Ledger(o) == s.Ledger(o))
            && (forall o :: t.Mutation(o) == s.Mutation(o)) && t.boot == s.boot && t.tasks == s.tasks
            && t.vault == s.vault + AllRefs(n)
            && Ctx(t, strict) == Ctx(s, strict).(config := Some(n), held := s.held[n.generation := n],
                                                 issued := s.issued + AllRefs(n))
  {}

  lemma InstalledContext(k: Context, k': Context, n: Configuration)
    requires ConfigOk(k) && k.config.None? && k.held == map[] && k.pre == {} && ValidConfiguration(n)
             && n.generation == 1
    requires AllRefs(n) !! k.issued
             && k' == k.(config := Some(n), held := k.held[n.generation := n], issued := k.issued + AllRefs(n))
    ensures Extends(k, k') && ConfigOk(k')
    ensures forall l :: Named(k', l) ==> l !in k.issued
    ensures forall l :: Doomed(k, l) ==> l in k.issued
  {}

  lemma InstalledVault(s: System, n: Configuration)
    requires VaultOk(s) && s.config.None?
    ensures VaultOk(Installed(s, n))
  {
    var t := Installed(s, n);
    forall x | x in t.vault
      ensures Accounted(t, x)
    {
      assert x in s.vault ==> Accounted(s, x);
    }
  }

  lemma InstalledRuntimes(s: System, n: Configuration, strict: bool)
    requires Inv(s, true) && s.config.None? && AllRefs(n) !! s.issued
    ensures RuntimesOk(Installed(s, n))
  {
    NothingBeforeInstall(s, true, ModelOwner);
    NothingBeforeInstall(s, true, VoiceOwner);
  }

  lemma EndingExtends(k: Context, k': Context, o: Owner, v: map<Locator, Entry>, vault: set<Locator>,
                      vault': set<Locator>, m: Mutation)
    requires (m.Idle? || m.Abandoning?) && MutationOk(k, o, v, vault, m) && Extends(k, k')
    requires forall l :: l in vault' && l !in vault ==> !Doomed(k, l)
    ensures MutationOk(k', o, v, vault', m) && Candidates(m) == {}
  {}

  lemma InstallKeeps(s: System, strict: bool, d: Draft, now: nat)
    requires Inv(s, strict) && s.boot == Serving
    ensures Inv(DoInstall(s, d, now), strict)
  {
    hide *;
    InstallShape(s, d, now);
    if DoInstall(s, d, now) != s {
      var n :| ValidConfiguration(n) && n.generation == 1 && AllRefs(n) !! s.issued
          && DoInstall(s, d, now) == Installed(s, n);
      var o := ModelOwner;
      var t := Installed(s, n);
      var k, k' := Ctx(s, strict), Ctx(t, strict);
      PartFacts(s, strict, o);
      NothingBeforeInstall(s, strict, o);
      NothingBeforeInstall(s, strict, Other(o));
      InstalledFrame(s, n, strict);
      InstalledContext(k, k', n);
      IssuedFacts(s, strict);
      EndingExtends(k, k', o, View(s.Ledger(o)), s.vault, t.vault, s.Mutation(o));
      EndingExtends(k, k', Other(o), View(s.Ledger(Other(o))), s.vault, t.vault, s.Mutation(Other(o)));
      TasksExtend(k, k', s.vault, t.vault, s.tasks);
      InstalledVault(s, n);
      if strict {
        InstalledRuntimes(s, n, strict);
      }
      ContextMoves(s, t, strict, o);
    }
  }

  predicate SameRefs(c: Configuration, n: Configuration) {
    Refs(n, ModelOwner) == Refs(c, ModelOwner) && Refs(n, VoiceOwner) == Refs(c, VoiceOwner)
  }

  function Recommitted(s: System, n: Configuration): System {
    s.(config := Some(n), held := s.held[n.generation := n])
  }

  lemma RecommitShape(s: System, d: Draft, now: nat)
    ensures var t := DoRecommit(s, d, now);
            t == s || (s.config.Some? && exists n :: ValidConfiguration(n)
                                                     && n.generation == s.config.value.generation + 1
                                                     && SameRefs(s.config.value, n) && t == Recommitted(s, n))
  {
    if s.config.Some? {
      var r := CommitDraft(s.config, s.config.value.generation, d, now);
      if r.Committed? {
        assert r.configuration.generation == s.config.value.generation + 1 && ValidConfiguration(r.configuration);
      }
    }
  }

  lemma RecommittedFrame(s: System, n: Configuration, strict: bool)
    ensures var t := Recommitted(s, n);
            && t.modelLedger == s.modelLedger && t.voiceLedger == s.voiceLedger
            && (forall o :: t.Ledger(o) == s.Ledger(o))
            && (forall o :: t.Mutation(o) == s.Mutation(o)) && t.boot == s.boot && t.tasks == s.tasks
            && t.vault == s.vault
            && Ctx(t, strict) == Ctx(s, strict).(config := Some(n), held := s.held[n.generation := n])
  {}

  lemma RecommittedContext(k: Context, k': Context, c: Configuration, n: Configuration)
    requires ConfigOk(k) && k.config == Some(c) && ValidConfiguration(n) && n.generation == c.generation + 1
             && SameRefs(c, n)
    requires k' == k.(config := Some(n), held := k.held[n.generation := n])
    ensures Extends(k, k') && ConfigOk(k') && (forall l :: Named(k', l) <==> Named(k, l))
    ensures forall o :: Refs(n, o) == Refs(c, o)
    ensures forall g :: g in k.held ==> g in k'.held && k'.held[g] == k.held[g]
  {
    assert n.generation !in k.held;
    assert AllRefs(n) == AllRefs(c);
    forall o
      ensures Refs(n, o) == Refs(c, o)
    {
      assert o == ModelOwner || o == VoiceOwner;
    }
  }

  lemma RecommittedVault(s: System, n: Configuration, strict: bool)
    requires VaultOk(s) && s.config.Some? && SameRefs(s.config.value, n) && (strict ==> RuntimesOk(s))
    ensures VaultOk(Recommitted(s, n)) && (strict ==> RuntimesOk(Recommitted(s, n)))
  {
    var t := Recommitted(s, n);
    forall x | x in t.vault
      ensures Accounted(t, x)
    {
      assert Accounted(s, x);
    }
    if strict {
      forall r | r in t.runtimes && t.runtimes[r].refs * Refs(n, t.runtimes[r].owner) != {}
        ensures t.runtimes[r].owner in t.mounted && t.mounted[t.runtimes[r].owner] == r
      {
        assert t.runtimes[r].owner == ModelOwner || t.runtimes[r].owner == VoiceOwner;
        assert s.runtimes[r].refs * Refs(s.config.value, s.runtimes[r].owner) != {};
      }
    }
  }

  lemma RecommitKeeps(s: System, strict: bool, d: Draft, now: nat)
    requires Inv(s, strict) && s.boot == Serving
    ensures Inv(DoRecommit(s, d, now), strict)
  {
    hide *;
    RecommitShape(s, d, now);
    if DoRecommit(s, d, now) != s {
      var c := s.config.value;
      var n :| ValidConfiguration(n) && n.generation == c.generation + 1 && SameRefs(c, n)
          && DoRecommit(s, d, now) == Recommitted(s, n);
      var o := ModelOwner;
      var t := Recommitted(s, n);
      var k, k' := Ctx(s, strict), Ctx(t, strict);
      PartFacts(s, strict, o);
      RecommittedFrame(s, n, strict);
      RecommittedContext(k, k', c, n);
      CandidateFacts(k, o, View(s.Ledger(o)), s.vault, s.Mutation(o));
      CandidateFacts(k, Other(o), View(s.Ledger(Other(o))), s.vault, s.Mutation(Other(o)));
      MutationExtends(k, k', o, View(s.Ledger(o)), s.vault, t.vault, s.Mutation(o));
      TasksExtend(k, k', s.vault, t.vault, s.tasks);
      RecommittedVault(s, n, strict);
      ContextMoves(s, t, strict, o);
    }
  }
}
