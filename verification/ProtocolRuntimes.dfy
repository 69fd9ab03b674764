/** Runtime generations: swapping, retrying, draining, and what a drain receipt covers. */
module ProtocolRuntimes {
  import opened Wrappers
  import opened Configurations
  import opened CleanupLedgers
  import opened CredentialProtocol
  import opened ProtocolInvariant
  import opened ProtocolSteps
  import opened ProtocolCommit
  import opened ProtocolActions

  // -------------------------------------------------------------------------
  // The swap after a commit
  // -------------------------------------------------------------------------

  predicate Swaps(s: System, o: Owner, up: bool) {
    var m := s.Mutation(o);
    m.Marking? && m.mark + m.fallback == {} && up && (o in s.closed ==> m.plan.DisableVoice?)
  }

  function Receipt(s: System, o: Owner): Task
    requires s.Mutation(o).Marking?
  {
    AwaitDrain(o, ManagedRefs(s.Mutation(o).current, o), if o in s.mounted then Some(s.mounted[o]) else None)
  }

  /** The swap, on the fields it changes. */
  function Swapped(s: System, o: Owner): System
    requires s.Mutation(o).Marking?
  {
    var p := s.Mutation(o).plan;
    var t := s.(tasks := s.tasks[s.nextTask := Receipt(s, o)], nextTask := s.nextTask + 1).WithMutation(o, Idle);
    if p.DisableVoice? then t.(mounted := s.mounted - {o})
    else t.(runtimes := s.runtimes[s.nextSerial := Runtime(o, PlanRefs(p))],
            mounted := s.mounted[o := s.nextSerial],
            nextSerial := s.nextSerial + 1)
  }

  lemma MountShape(s: System, o: Owner, up: bool)
    ensures Swaps(s, o, up) ==> s.Mutation(o).Marking?
    ensures DoMount(s, o, up) == if Swaps(s, o, up) then Swapped(s, o)
                                 else if s.Mutation(o).Marking? && s.Mutation(o).mark + s.Mutation(o).fallback == {}
                                      then s.WithMutation(o, Idle)
                                 else s
  {}

  lemma SwappedFrame(s: System, o: Owner, strict: bool)
    requires s.Mutation(o).Marking? && (strict ==> SerialsOk(s.runtimes, s.mounted, s.nextSerial))
    ensures var t := Swapped(s, o);
            && t.modelLedger == s.modelLedger && t.voiceLedger == s.voiceLedger
            && t.Ledger(o) == s.Ledger(o) && t.Ledger(Other(o)) == s.Ledger(Other(o))
            && t.Mutation(Other(o)) == s.Mutation(Other(o))
            && t.Mutation(o) == Idle && t.boot == s.boot && t.config == s.config && t.vault == s.vault
            && t.tasks == s.tasks[s.nextTask := Receipt(s, o)]
            && Ctx(t, strict).used <= Ctx(s, strict).used + PlanRefs(s.Mutation(o).plan)
            && Ctx(t, strict) == Ctx(s, strict).(used := Ctx(t, strict).used)
            && Ctx(s, strict).pre == Candidates(s.Mutation(Other(o)))
  {}

  lemma UsesMore(k: Context, k': Context, more: set<Locator>)
    requires k' == k.(used := k'.used) && k'.used <= k.used + more && forall l :: l in more ==> Named(k, l)
    ensures Extends(k, k') && (forall l :: Named(k', l) <==> Named(k, l)) && (ConfigOk(k) ==> ConfigOk(k'))
    ensures forall l :: l in k'.used && l !in k.used ==> Named(k, l)
  {}

  lemma MarkedPlan(k: Context, o: Owner, v: map<Locator, Entry>, vault: set<Locator>, m: Mutation)
    requires m.Marking? && MutationOk(k, o, v, vault, m)
    ensures forall l :: l in PlanRefs(m.plan) ==> Named(k, l) && l.Owner() == o
    ensures forall l :: l in ManagedRefs(m.current, o) ==> Replaced(k, l) && l.Owner() == o && l.managed
    ensures PlanOwner(m.plan) == o && k.config.Some? && Refs(k.config.value, o) == PlanRefs(m.plan)
  {
    PlanRefsFollowOwner(m.plan);
    assert forall l :: l in PlanRefs(m.plan) ==> l in Refs(k.config.value, o);
  }

  lemma ReceiptIsTask(k: Context, vault: set<Locator>, s: System, o: Owner)
    requires s.Mutation(o).Marking?
    requires forall l :: l in ManagedRefs(s.Mutation(o).current, o) ==> Replaced(k, l) && l.Owner() == o && l.managed
    ensures TaskOk(k, vault, Receipt(s, o))
  {}

  /** The other owner's change between commit and swap, when runtimes are swapped here. */
  lemma SwapOther(s: System, o: Owner, rs: map<nat, Runtime>, mounted: map<Owner, nat>, refs: set<Locator>)
    requires MarkingRuntimesOk(s.runtimes, s.mounted, Other(o), s.Mutation(Other(o)))
    requires MutationOk(Ctx(s, true), Other(o), View(s.Ledger(Other(o))), s.vault, s.Mutation(Other(o)))
    requires forall l :: l in refs ==> l.Owner() == o
    requires forall n :: n in rs ==> (n in s.runtimes && rs[n] == s.runtimes[n]) || rs[n].refs <= refs
    requires Other(o) in s.mounted ==> Other(o) in mounted && mounted[Other(o)] == s.mounted[Other(o)]
    ensures MarkingRuntimesOk(rs, mounted, Other(o), s.Mutation(Other(o)))
  {
    var m := s.Mutation(Other(o));
    if m.Marking? {
      MarkedPlan(Ctx(s, true), Other(o), View(s.Ledger(Other(o))), s.vault, m);
    }
  }

  /** Receipts stay good when the locators of a new generation are still named. */
  lemma SwapReceipts(k: Context, vault: set<Locator>, tasks: map<nat, Task>, rs: map<nat, Runtime>, rs': map<nat,
                     Runtime>)
    requires forall id :: id in tasks ==> TaskOk(k, vault, tasks[id]) && ReceiptOk(rs, tasks[id])
    requires forall n :: n in rs' ==> (n in rs && rs'[n] == rs[n]) || forall l :: l in rs'[n].refs ==> Named(k, l)
    ensures forall id :: id in tasks ==> ReceiptOk(rs', tasks[id])
  {
    forall id | id in tasks
      ensures ReceiptOk(rs', tasks[id])
    {
      assert TaskOk(k, vault, tasks[id]) && ReceiptOk(rs, tasks[id]);
    }
  }

  /** A new generation with credentials of the configuration that no other one uses. */
  lemma NewGeneration(s: System, o: Owner, rs: map<nat, Runtime>, refs: set<Locator>)
    requires RuntimesOk(s) && s.config.Some? && refs == Refs(s.config.value, o) && ValidConfiguration(s.config.value)
    requires forall n :: n in rs ==> n in s.runtimes && rs[n] == s.runtimes[n] && rs[n].refs !! refs
    requires o in s.mounted ==> forall x :: x in s.mounted && x != o ==> s.mounted[x] in rs
    requires o !in s.mounted ==> rs == s.runtimes
    ensures var rs', mounted' := rs[s.nextSerial := Runtime(o, refs)], s.mounted[o := s.nextSerial];
            && SerialsOk(rs', mounted', s.nextSerial + 1) && NoSharing(rs') && NamedMounted(s.config, rs', mounted')
  {
    RefsFollowTracks(s.config.value);
    var rs', mounted' := rs[s.nextSerial := Runtime(o, refs)], s.mounted[o := s.nextSerial];
    forall n | n in rs' && rs'[n].refs * Refs(s.config.value, rs'[n].owner) != {}
      ensures rs'[n].owner in mounted' && mounted'[rs'[n].owner] == n
    {
      if n != s.nextSerial {
        assert s.runtimes[n].owner in s.mounted && s.mounted[s.runtimes[n].owner] == n;
      }
    }
  }

  lemma NewUse(s: System, o: Owner, rs: map<nat, Runtime>, refs: set<Locator>, pre: set<Locator>)
    requires RuntimesOk(s) && s.config.Some? && refs == Refs(s.config.value, o) && ValidConfiguration(s.config.value)
    requires refs <= s.issued && refs <= s.vault && refs !! pre
             && pre <= Candidates(s.modelMutation) + Candidates(s.voiceMutation)
    requires forall n :: n in rs ==> n in s.runtimes && rs[n] == s.runtimes[n]
    ensures var rs' := rs[s.nextSerial := Runtime(o, refs)];
            forall n :: n in rs' ==> UseOk(s.issued, s.vault, pre, rs'[n])
  {
    RefsFollowTracks(s.config.value);
    forall n | n in rs
      ensures UseOk(s.issued, s.vault, pre, rs[n])
    {
      assert UseOk(s.issued, s.vault, Candidates(s.modelMutation) + Candidates(s.voiceMutation), s.runtimes[n]);
    }
  }

  lemma RuntimesTogether(t: System, o: Owner)
    requires SerialsOk(t.runtimes, t.mounted, t.nextSerial) && NoSharing(t.runtimes)
             && NamedMounted(t.config, t.runtimes, t.mounted)
    requires forall n :: n in t.runtimes ==>
             UseOk(t.issued, t.vault, Candidates(t.Mutation(o)) + Candidates(t.Mutation(Other(o))), t.runtimes[n])
    requires MarkingRuntimesOk(t.runtimes, t.mounted, o, t.Mutation(o))
    requires MarkingRuntimesOk(t.runtimes, t.mounted, Other(o), t.Mutation(Other(o)))
    requires forall id :: id in t.tasks ==> ReceiptOk(t.runtimes, t.tasks[id])
    ensures RuntimesOk(t)
  {
    assert Candidates(t.modelMutation) + Candidates(t.voiceMutation)
           == Candidates(t.Mutation(o)) + Candidates(t.Mutation(Other(o)));
  }

  lemma RuntimesApart(s: System, o: Owner)
    requires RuntimesOk(s)
    ensures SerialsOk(s.runtimes, s.mounted, s.nextSerial) && NoSharing(s.runtimes)
            && NamedMounted(s.config, s.runtimes, s.mounted)
    ensures forall n :: n in s.runtimes ==>
            UseOk(s.issued, s.vault, Candidates(s.Mutation(o)) + Candidates(s.Mutation(Other(o))), s.runtimes[n])
    ensures MarkingRuntimesOk(s.runtimes, s.mounted, o, s.Mutation(o))
    ensures MarkingRuntimesOk(s.runtimes, s.mounted, Other(o), s.Mutation(Other(o)))
    ensures forall id :: id in s.tasks ==> ReceiptOk(s.runtimes, s.tasks[id])
  {
    assert Candidates(s.modelMutation) + Candidates(s.voiceMutation)
           == Candidates(s.Mutation(o)) + Candidates(s.Mutation(Other(o)));
  }

  /** The receipt of a swap covers every generation that uses what the swap replaced. */
  lemma ReceiptCovers(s: System, o: Owner, rs: map<nat, Runtime>)
    requires s.Mutation(o).Marking? && MarkingRuntimesOk(s.runtimes, s.mounted, o, s.Mutation(o))
    requires forall n :: n in rs ==>
             (n in s.runtimes && rs[n] == s.runtimes[n]) || rs[n].refs !! ManagedRefs(s.Mutation(o).current, o)
    ensures ReceiptOk(rs, Receipt(s, o))
  {}

  lemma MarkingDisjoint(s: System, o: Owner)
    requires s.Mutation(o).Marking? && MarkingRuntimesOk(s.runtimes, s.mounted, o, s.Mutation(o))
    ensures forall n :: n in s.runtimes ==> s.runtimes[n].refs !! PlanRefs(s.Mutation(o).plan)
  {}

  lemma SerialsFacts(s: System)
    requires SerialsOk(s.runtimes, s.mounted, s.nextSerial)
    ensures forall x :: x in s.mounted ==> s.mounted[x] in s.runtimes && s.runtimes[s.mounted[x]].owner == x
    ensures s.nextSerial !in s.runtimes
  {}

  lemma SwapFields(s: System, o: Owner)
    requires s.Mutation(o).Marking?
    ensures var t, p := Swapped(s, o), s.Mutation(o).plan;
            && t.issued == s.issued && t.vault == s.vault && t.config == s.config
            && (p.DisableVoice? ==>
                t.runtimes == s.runtimes && t.mounted == s.mounted - {o} && t.nextSerial == s.nextSerial
                && PlanRefs(p) == {})
            && (!p.DisableVoice? ==> t.runtimes == s.runtimes[s.nextSerial := Runtime(o, PlanRefs(p))]
                                     && t.mounted == s.mounted[o := s.nextSerial] && t.nextSerial == s.nextSerial + 1)
  {}

  /** Without a voice section no generation of the voice owner is named any more. */
  lemma Unmounted(s: System, o: Owner)
    requires SerialsOk(s.runtimes, s.mounted, s.nextSerial) && NamedMounted(s.config, s.runtimes, s.mounted)
    requires s.config.Some? && Refs(s.config.value, o) == {}
    ensures SerialsOk(s.runtimes, s.mounted - {o}, s.nextSerial) && NamedMounted(s.config, s.runtimes, s.mounted - {o})
  {}

  lemma FewerUse(issued: set<Locator>, vault: set<Locator>, pre: set<Locator>, pre': set<Locator>, rs: map<nat,
                 Runtime>)
    requires pre' <= pre && forall n :: n in rs ==> UseOk(issued, vault, pre, rs[n])
    ensures forall n :: n in rs ==> UseOk(issued, vault, pre', rs[n])
  {
    forall n | n in rs
      ensures UseOk(issued, vault, pre', rs[n])
    {
      assert UseOk(issued, vault, pre, rs[n]);
    }
  }

  lemma SwapTasks(s: System, o: Owner, rs: map<nat, Runtime>)
    requires s.Mutation(o).Marking? && (forall id :: id in s.tasks ==> ReceiptOk(rs, s.tasks[id]))
             && ReceiptOk(rs, Receipt(s, o))
    ensures var t := Swapped(s, o); forall id :: id in t.tasks ==> ReceiptOk(rs, t.tasks[id])
  {}

  lemma ManagedAreRefs(c: Configuration, o: Owner)
    ensures ManagedRefs(c, o) <= Refs(c, o) && Refs(c, o) <= AllRefs(c)
  {}

  lemma SwapGenerations(s: System, o: Owner)
    requires Inv(s, true) && s.Mutation(o).Marking?
    ensures var t := Swapped(s, o);
            SerialsOk(t.runtimes, t.mounted, t.nextSerial) && NoSharing(t.runtimes)
            && NamedMounted(t.config, t.runtimes, t.mounted)
            && (forall n :: n in t.runtimes ==>
                UseOk(t.issued, t.vault, Candidates(t.Mutation(o)) + Candidates(t.Mutation(Other(o))), t.runtimes[n]))
  {
    hide *;
    var t, m, p, w := Swapped(s, o), s.Mutation(o), s.Mutation(o).plan, s.Mutation(Other(o));
    var k := Ctx(s, true);
    PartFacts(s, true, o);
    IssuedFacts(s, true);
    RuntimesApart(s, o);
    SerialsFacts(s);
    SwapFields(s, o);
    SwappedFrame(s, o, true);
    MarkedPlan(k, o, View(s.Ledger(o)), s.vault, m);
    MarkingDisjoint(s, o);
    NotPreCommit(m);
    NotPreCommit(Idle);
    NoCandidates(m);
    NoCandidates(Idle);
    CandidateFacts(k, Other(o), View(s.Ledger(Other(o))), s.vault, w);
    if p.DisableVoice? {
      Unmounted(s, o);
      FewerUse(s.issued, s.vault, Candidates(m) + Candidates(w), Candidates(t.Mutation(o)) + Candidates(w), s.runtimes);
    } else {
      ManagedAreRefs(s.config.value, o);
      NewGeneration(s, o, s.runtimes, PlanRefs(p));
      SameCandidates(s, o);
      NewUse(s, o, s.runtimes, PlanRefs(p), Candidates(t.Mutation(o)) + Candidates(w));
    }
  }

  lemma SameCandidates(s: System, o: Owner)
    ensures Candidates(s.modelMutation) + Candidates(s.voiceMutation)
            == Candidates(s.Mutation(o)) + Candidates(s.Mutation(Other(o)))
  {}

  lemma SwapRuntimes(s: System, o: Owner)
    requires Inv(s, true) && s.Mutation(o).Marking?
    ensures RuntimesOk(Swapped(s, o))
  {
    hide *;
    var t, m, p := Swapped(s, o), s.Mutation(o), s.Mutation(o).plan;
    var k := Ctx(s, true);
    PartFacts(s, true, o);
    RuntimesApart(s, o);
    SerialsFacts(s);
    SwapFields(s, o);
    SwappedFrame(s, o, true);
    MarkedPlan(k, o, View(s.Ledger(o)), s.vault, m);
    SwapGenerations(s, o);
    NotMarking(t.runtimes, t.mounted, o, Idle);
    OwnersDiffer(o);
    SwapOther(s, o, t.runtimes, t.mounted, PlanRefs(p));
    SwapReceipts(k, s.vault, s.tasks, s.runtimes, t.runtimes);
    ReplacedNotNamed(k);
    ReceiptCovers(s, o, t.runtimes);
    SwapTasks(s, o, t.runtimes);
    RuntimesTogether(t, o);
  }

  lemma OwnersDiffer(o: Owner)
    ensures Other(o) != o
  {}

  lemma ReplacedNotNamed(k: Context)
    ensures forall l :: Replaced(k, l) ==> !Named(k, l)
  {}

  lemma MountKeeps(s: System, strict: bool, o: Owner, up: bool)
    requires Inv(s, strict) && s.boot == Serving
    ensures Inv(DoMount(s, o, up), strict)
  {
    hide *;
    MountShape(s, o, up);
    GoesIdle(s, strict, o);
    if Swaps(s, o, up) {
      var m := s.Mutation(o);
      var t := Swapped(s, o);
      var k, k' := Ctx(s, strict), Ctx(t, strict);
      PartFacts(s, strict, o);
      if strict {
        RuntimesApart(s, o);
        SwapRuntimes(s, o);
      }
      SwappedFrame(s, o, strict);
      MarkedPlan(k, o, View(s.Ledger(o)), s.vault, m);
      UsesMore(k, k', PlanRefs(m.plan));
      IdleOk(k', o, View(t.Ledger(o)), t.vault);
      CandidateFacts(k, Other(o), View(s.Ledger(Other(o))), s.vault, s.Mutation(Other(o)));
      ReceiptIsTask(k, s.vault, s, o);
      TasksExtend(k, k', s.vault, t.vault, s.tasks[s.nextTask := Receipt(s, o)]);
      VaultSame(s, t);
      ContextMoves(s, t, strict, o);
    }
  }

  // -------------------------------------------------------------------------
  // Start-up mount and retry
  // -------------------------------------------------------------------------

  predicate Remounts(s: System, o: Owner) {
    o !in s.closed && s.Mutation(o) == Idle && s.config.Some?
  }

  function Kept(s: System, o: Owner, idle: bool): map<nat, Runtime> {
    if idle && o in s.mounted then s.runtimes - {s.mounted[o]} else s.runtimes
  }

  lemma RemountShape(s: System, o: Owner, idle: bool)
    ensures DoRemount(s, o, idle) ==
            if Remounts(s, o) then
              s.(runtimes := Kept(s, o, idle)[s.nextSerial := Runtime(o, Refs(s.config.value, o))],
                 mounted := s.mounted[o := s.nextSerial],
                 nextSerial := s.nextSerial + 1)
            else s
  {}

  lemma RemountFrame(s: System, o: Owner, idle: bool, strict: bool)
    requires Remounts(s, o)
    ensures var t := DoRemount(s, o, idle);
            && t.modelLedger == s.modelLedger && t.voiceLedger == s.voiceLedger
            && t.Ledger(o) == s.Ledger(o) && t.Ledger(Other(o)) == s.Ledger(Other(o))
            && t.Mutation(Other(o)) == s.Mutation(Other(o))
            && t.Mutation(o) == s.Mutation(o) && t.Mutation(o) == Idle && t.boot == s.boot && t.config == s.config
            && t.vault == s.vault
            && t.tasks == s.tasks && t.issued == s.issued
            && Ctx(t, strict).used <= Ctx(s, strict).used + Refs(s.config.value, o)
            && Ctx(t, strict) == Ctx(s, strict).(used := Ctx(t, strict).used)
  {}

  /** The generations that stay share nothing with the configured credentials. */
  lemma KeptShareNothing(s: System, o: Owner, idle: bool)
    requires RuntimesOk(s) && Remounts(s, o) && ValidConfiguration(s.config.value) && !Overlaps(s, Remount(o, idle))
    ensures var rs := Kept(s, o, idle);
            && (forall n :: n in rs ==>
                n in s.runtimes && rs[n] == s.runtimes[n] && rs[n].refs !! Refs(s.config.value, o))
            && (o in s.mounted ==> forall x :: x in s.mounted && x != o ==> s.mounted[x] in rs)
            && (o !in s.mounted ==> rs == s.runtimes)
  {
    forall n | n in s.runtimes && s.runtimes[n].refs * Refs(s.config.value, o) != {}
      ensures o in s.mounted && s.mounted[o] == n
    {
      SharedIsMounted(s, o, n);
    }
    hide UseOk, NoSharing, NamedMounted, MarkingRuntimesOk, ReceiptOk;
  }

  /** Only the mounted generation of an owner uses what the configuration names. */
  lemma SharedIsMounted(s: System, o: Owner, n: nat)
    requires RuntimesOk(s) && s.config.Some? && ValidConfiguration(s.config.value)
    requires n in s.runtimes && s.runtimes[n].refs * Refs(s.config.value, o) != {}
    ensures o in s.mounted && s.mounted[o] == n
  {
    RefsFollowTracks(s.config.value);
    var l :| l in s.runtimes[n].refs * Refs(s.config.value, o);
    assert UseOk(s.issued, s.vault, Candidates(s.modelMutation) + Candidates(s.voiceMutation), s.runtimes[n]);
    assert l in s.runtimes[n].refs * Refs(s.config.value, s.runtimes[n].owner);
  }

  lemma RemountRuntimes(s: System, o: Owner, idle: bool)
    requires Inv(s, true) && Remounts(s, o) && s.boot == Serving && !Overlaps(s, Remount(o, idle))
    ensures RuntimesOk(DoRemount(s, o, idle))
  {
    hide *;
    var t := DoRemount(s, o, idle);
    var k := Ctx(s, true);
    RemountsFacts(s, o);
    var rs, refs, w := Kept(s, o, idle), Refs(s.config.value, o), s.Mutation(Other(o));
    RemountShape(s, o, idle);
    RemountFrame(s, o, idle, true);
    PartFacts(s, true, o);
    IssuedFacts(s, true);
    RuntimesApart(s, o);
    ManagedAreRefs(s.config.value, o);
    KeptShareNothing(s, o, idle);
    NewGeneration(s, o, rs, refs);
    SameCandidates(s, o);
    CandidateFacts(k, o, View(s.Ledger(o)), s.vault, s.Mutation(o));
    CandidateFacts(k, Other(o), View(s.Ledger(Other(o))), s.vault, w);
    NamedRefs(k, o);
    NewUse(s, o, rs, refs, Candidates(s.Mutation(o)) + Candidates(w));
    NotMarking(t.runtimes, t.mounted, o, Idle);
    OwnersDiffer(o);
    SwapOther(s, o, t.runtimes, t.mounted, refs);
    SwapReceipts(k, s.vault, s.tasks, s.runtimes, t.runtimes);
    RuntimesTogether(t, o);
  }

  lemma RemountsFacts(s: System, o: Owner)
    requires Remounts(s, o)
    ensures s.Mutation(o) == Idle && s.config.Some?
  {}

  lemma NamedRefs(k: Context, o: Owner)
    requires ConfigOk(k) && k.config.Some?
    ensures forall l :: l in Refs(k.config.value, o) ==> Named(k, l) && l.Owner() == o
  {
    RefsFollowTracks(k.config.value);
  }

  lemma RemountKeeps(s: System, strict: bool, o: Owner, idle: bool)
    requires Inv(s, strict) && s.boot == Serving && (strict ==> !Overlaps(s, Remount(o, idle)))
    ensures Inv(DoRemount(s, o, idle), strict)
  {
    hide *;
    RemountShape(s, o, idle);
    if Remounts(s, o) {
      var t := DoRemount(s, o, idle);
      var k, k' := Ctx(s, strict), Ctx(t, strict);
      RemountsFacts(s, o);
      PartFacts(s, strict, o);
      RemountFrame(s, o, idle, strict);
      if strict {
        RemountRuntimes(s, o, idle);
      }
      NamedRefs(k, o);
      UsesMore(k, k', Refs(s.config.value, o));
      IdleOk(k', o, View(t.Ledger(o)), t.vault);
      CandidateFacts(k, Other(o), View(s.Ledger(Other(o))), s.vault, s.Mutation(Other(o)));
      TasksExtend(k, k', s.vault, t.vault, s.tasks);
      VaultSame(s, t);
      NoCandidates(Idle);
      ContextMoves(s, t, strict, o);
    }
  }

  // -------------------------------------------------------------------------
  // A generation drains
  // -------------------------------------------------------------------------

  predicate Drains(s: System, n: nat) {
    n in s.runtimes && forall o :: o in s.mounted ==> s.mounted[o] != n
  }

  lemma DrainFrame(s: System, n: nat, strict: bool)
    ensures var t := DoDrain(s, n);
            && (!Drains(s, n) ==> t == s) && (Drains(s, n) ==> t == s.(runtimes := s.runtimes - {n}))
            && t.modelLedger == s.modelLedger && t.voiceLedger == s.voiceLedger
            && (forall o :: t.Ledger(o) == s.Ledger(o) && t.Mutation(o) == s.Mutation(o))
            && t.boot == s.boot && t.config == s.config && t.vault == s.vault && t.tasks == s.tasks
            && Ctx(t, strict).used <= Ctx(s, strict).used
            && Ctx(t, strict) == Ctx(s, strict).(used := Ctx(t, strict).used)
  {}

  lemma DrainRuntimes(s: System, n: nat)
    requires RuntimesOk(s)
    ensures RuntimesOk(DoDrain(s, n))
  {
    var t := DoDrain(s, n);
    forall id | id in t.tasks
      ensures ReceiptOk(t.runtimes, t.tasks[id])
    {
      assert ReceiptOk(s.runtimes, s.tasks[id]);
    }
  }

  lemma DrainKeeps(s: System, strict: bool, n: nat)
    requires Inv(s, strict) && s.boot == Serving
    ensures Inv(DoDrain(s, n), strict)
  {
    hide *;
    var t := DoDrain(s, n);
    var k, k' := Ctx(s, strict), Ctx(t, strict);
    var o := ModelOwner;
    PartFacts(s, strict, o);
    DrainFrame(s, n, strict);
    UsesMore(k, k', {});
    CandidateFacts(k, o, View(s.Ledger(o)), s.vault, s.Mutation(o));
    CandidateFacts(k, Other(o), View(s.Ledger(Other(o))), s.vault, s.Mutation(Other(o)));
    MutationExtends(k, k', o, View(s.Ledger(o)), s.vault, t.vault, s.Mutation(o));
    TasksExtend(k, k', s.vault, t.vault, s.tasks);
    VaultSame(s, t);
    if strict {
      DrainRuntimes(s, n);
    }
    ContextMoves(s, t, strict, o);
  }
}
