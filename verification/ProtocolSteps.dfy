/** Every action keeps the invariant: one lemma per kind of effect. */
module ProtocolSteps {
  import opened Wrappers
  import opened Configurations
  import opened CleanupLedgers
  import opened CredentialProtocol
  import opened ProtocolInvariant

  // -------------------------------------------------------------------------
  // Ledger effects
  // -------------------------------------------------------------------------

  lemma LedgerFacts(s: System, strict: bool, o: Owner)
    requires Inv(s, strict)
    ensures Unique(s.Ledger(o)) && |s.Ledger(o)| <= MAX_ENTRIES
    ensures EntriesOk(Ctx(s, strict), o, View(s.Ledger(o)))
    ensures s.config.Some? ==> AllRefs(s.config.value) <= s.issued
  {}

  function Other(o: Owner): Owner {
    if o == ModelOwner then VoiceOwner else ModelOwner
  }

  /** The invariant put together again from the parts of an owner and of the other one. */
  lemma Assemble(t: System, strict: bool, k: Context, o: Owner)
    requires k == Ctx(t, strict) && ConfigOk(k)
    requires LedgerOk(k, o, t.Ledger(o)) && LedgerOk(k, Other(o), t.Ledger(Other(o)))
    requires MutationOk(k, o, View(t.Ledger(o)), t.vault, t.Mutation(o))
    requires MutationOk(k, Other(o), View(t.Ledger(Other(o))), t.vault, t.Mutation(Other(o)))
    requires forall id :: id in t.tasks ==> TaskOk(k, t.vault, t.tasks[id])
    requires BootOk(k, View(t.Ledger(BootOwner(t.boot))), t.vault, t.boot)
    requires AtRestWhileRecovering(t) && VaultOk(t) && (strict ==> RuntimesOk(t))
    ensures Inv(t, strict)
  {}

  /** The invariant taken apart. */
  lemma PartFacts(s: System, strict: bool, o: Owner)
    requires Inv(s, strict)
    ensures var k := Ctx(s, strict);
            && LedgerOk(k, o, s.Ledger(o)) && LedgerOk(k, Other(o), s.Ledger(Other(o)))
            && MutationOk(k, o, View(s.Ledger(o)), s.vault, s.Mutation(o))
            && MutationOk(k, Other(o), View(s.Ledger(Other(o))), s.vault, s.Mutation(Other(o)))
            && (forall id :: id in s.tasks ==> TaskOk(k, s.vault, s.tasks[id]))
            && BootOk(k, View(s.Ledger(BootOwner(s.boot))), s.vault, s.boot)
            && VaultOk(s) && (strict ==> RuntimesOk(s)) && ConfigOk(k)
            && k.config == s.config && k.held == s.held && k.issued == s.issued
            && k.pre == Candidates(s.Mutation(o)) + Candidates(s.Mutation(Other(o)))
  {}

  lemma ServingOk(k: Context, v: map<Locator, Entry>, vault: set<Locator>)
    ensures BootOk(k, v, vault, Serving)
  {}

  lemma MutationFacts(s: System, strict: bool, o: Owner)
    requires Inv(s, strict)
    ensures MutationOk(Ctx(s, strict), o, View(s.Ledger(o)), s.vault, s.Mutation(o))
  {}

  /** What a ledger write about one locator leaves alone. */
  lemma WriteFrame(s: System, strict: bool, o: Owner, es': seq<Entry>)
    ensures var t := s.WithLedger(o, es');
            && Ctx(t, strict) == Ctx(s, strict) && t.vault == s.vault && t.tasks == s.tasks && t.boot == s.boot
            && t.Ledger(o) == es' && t.Ledger(Other(o)) == s.Ledger(Other(o))
            && t.Mutation(o) == s.Mutation(o) && t.Mutation(Other(o)) == s.Mutation(Other(o))
            && (AtRestWhileRecovering(s) ==> AtRestWhileRecovering(t)) && (RuntimesOk(s) ==> RuntimesOk(t))
            && (BootOwner(s.boot) == o || BootOwner(s.boot) == Other(o))
  {}

  lemma WriteLedger(k: Context, o: Owner, es: seq<Entry>, es': seq<Entry>, l: Locator)
    requires LedgerOk(k, o, es) && Touches(es, es', l) && |es'| <= MAX_ENTRIES
    requires l in View(es') ==> View(es')[l].ref == l && EntryOk(k, o, View(es')[l])
    ensures LedgerOk(k, o, es') && AgreeExcept(View(es), View(es'), l)
  {
    EntriesUntouched(k, o, View(es), View(es'), l);
  }

  lemma RecoveringRest(s: System, strict: bool)
    requires Inv(s, strict)
    ensures AtRestWhileRecovering(s)
  {}

  /** Every ledger write that keeps its own entry in order keeps the invariant. */
  lemma LedgerWrite(s: System, strict: bool, o: Owner, l: Locator, es': seq<Entry>)
    requires Inv(s, strict) && l.Owner() == o
    requires Touches(s.Ledger(o), es', l) && |es'| <= MAX_ENTRIES
    requires l in View(es') ==> View(es')[l].ref == l && EntryOk(Ctx(s, strict), o, View(es')[l])
    requires l !in View(es') ==> l !in s.vault
    requires Unnoticed(Ctx(s, strict), s.Mutation(o), View(s.Ledger(o)), View(es'), l)
    requires Settled(s.boot, o, l)
    ensures Inv(s.WithLedger(o, es'), strict)
  {
    hide *;
    var k := Ctx(s, strict);
    var v, v' := View(s.Ledger(o)), View(es');
    var t := s.WithLedger(o, es');
    PartFacts(s, strict, o);
    RecoveringRest(s, strict);
    WriteFrame(s, strict, o, es');
    WriteLedger(k, o, s.Ledger(o), es', l);
    MutationUnnoticed(k, o, v, v', l, s.vault, s.Mutation(o));
    BootUntouched(k, o, v, v', l, View(s.Ledger(BootOwner(s.boot))), View(t.Ledger(BootOwner(s.boot))), s.vault,
                  s.boot);
    VaultUntouched(s, o, l, es');
    Assemble(t, strict, k, o);
  }

  lemma AdoptedEntry(k: Context, o: Owner, es: seq<Entry>, l: Locator, g: int)
    requires Unique(es) && EntriesOk(k, o, View(es)) && l in k.issued
    requires Named(k, l) && HeldAt(k, g, l)
    requires AdoptCommitted(o, es, l, g).Ok?
    ensures var v := View(AdoptCommitted(o, es, l, g).entries);
            l in v && v[l].ref == l && EntryOk(k, o, v[l]) && v[l].phase == Active
  {
    AdoptCommittedEffect(o, es, l, g);
    assert l in View(es) ==> EntryOk(k, o, View(es)[l]);
  }

  lemma AdoptReady(k: Context, o: Owner, m: Mutation, es: seq<Entry>, l: Locator, g: int)
    requires Unique(es) && |es| <= MAX_ENTRIES && EntriesOk(k, o, View(es)) && l in k.issued
    requires Named(k, l) && HeldAt(k, g, l) && (m.Idle? || m.Adopting? || m.Marking?)
    ensures var r := AdoptCommitted(o, es, l, g);
            WriteReady(k, o, m, es, r, l) && (r.Ok? ==> ActiveIn(View(r.entries), l))
  {
    AdoptCommittedEffect(o, es, l, g);
    if AdoptCommitted(o, es, l, g).Ok? {
      AdoptedEntry(k, o, es, l, g);
    }
    hide AdoptCommitted, View, Touches, EntriesOk, EntryOk, Find;
  }

  lemma NamedIsIssued(s: System, strict: bool)
    requires Inv(s, strict)
    ensures forall l :: Named(Ctx(s, strict), l) ==> l in Ctx(s, strict).issued
  {}

  lemma AdoptKeeps(s: System, strict: bool, o: Owner, l: Locator, g: int, f: Fault)
    requires Inv(s, strict) && l.Owner() == o
    requires Settled(s.boot, o, l)
    requires Named(Ctx(s, strict), l) && HeldAt(Ctx(s, strict), g, l)
    requires var m := s.Mutation(o); m.Idle? || m.Adopting? || m.Marking?
    ensures var r := AdoptCommitted(o, s.Ledger(o), l, g);
            && Inv(Apply(s, o, r, f), strict)
            && (Succeeds(r, f) ==> ActiveIn(View(r.entries), l))
  {
    LedgerFacts(s, strict, o);
    hide *;
    NamedIsIssued(s, strict);
    var r := AdoptCommitted(o, s.Ledger(o), l, g);
    AdoptReady(Ctx(s, strict), o, s.Mutation(o), s.Ledger(o), l, g);
    AppliedLedger(s, o, r, f);
    WriteIfOk(s, strict, o, l, r, f);
  }

  lemma ReservedEntry(k: Context, o: Owner, m: Mutation, es: seq<Entry>, l: Locator, expected: int)
    requires Unique(es) && l in k.issued && !Named(k, l)
    ensures var r := Reserve(o, es, l, expected);
            WriteReady(k, o, m, es, r, l) && (r.Ok? ==> StagedIn(View(r.entries), l, expected))
  {
    ReserveEffect(o, es, l, expected);
    hide Reserve, View, Touches;
  }

  lemma AppliedLedger(s: System, o: Owner, r: LedgerResult, f: Fault)
    ensures Succeeds(r, f) ==> Apply(s, o, r, f).Ledger(o) == r.entries && r.Ok?
  {}

  lemma ReserveKeeps(s: System, strict: bool, o: Owner, l: Locator, expected: int, f: Fault)
    requires Inv(s, strict) && l.Owner() == o && l in s.issued && !Named(Ctx(s, strict), l)
    requires Settled(s.boot, o, l)
    ensures var r := Reserve(o, s.Ledger(o), l, expected);
            && Inv(Apply(s, o, r, f), strict)
            && (Succeeds(r, f) ==> StagedIn(View(Apply(s, o, r, f).Ledger(o)), l, expected))
  {
    LedgerFacts(s, strict, o);
    hide *;
    var r := Reserve(o, s.Ledger(o), l, expected);
    PartFacts(s, strict, o);
    ReservedEntry(Ctx(s, strict), o, s.Mutation(o), s.Ledger(o), l, expected);
    AppliedLedger(s, o, r, f);
    WriteIfOk(s, strict, o, l, r, f);
  }

  lemma MarkedEntry(k: Context, o: Owner, es: seq<Entry>, l: Locator, committed: int)
    requires Unique(es) && EntriesOk(k, o, View(es)) && HeldAt(k, committed, l)
    requires l in View(es) && View(es)[l].phase == Staged ==> View(es)[l].expectedGeneration + 1 == committed
    requires MarkCommitted(o, es, l, committed - 1, committed).Ok?
    ensures var v := View(MarkCommitted(o, es, l, committed - 1, committed).entries);
            l in v && v[l].ref == l && EntryOk(k, o, v[l])
  {
    MarkCommittedEffect(o, es, l, committed - 1, committed);
    assert EntryOk(k, o, View(es)[l]);
  }

  lemma MarkReady(k: Context, o: Owner, m: Mutation, es: seq<Entry>, l: Locator, committed: int)
    requires Unique(es) && |es| <= MAX_ENTRIES && EntriesOk(k, o, View(es)) && HeldAt(k, committed, l)
    requires l in View(es) && View(es)[l].phase == Staged ==> View(es)[l].expectedGeneration + 1 == committed
    requires m.Idle? || m.Marking?
    ensures WriteReady(k, o, m, es, MarkCommitted(o, es, l, committed - 1, committed), l)
  {
    MarkCommittedEffect(o, es, l, committed - 1, committed);
    if MarkCommitted(o, es, l, committed - 1, committed).Ok? {
      MarkedEntry(k, o, es, l, committed);
    }
  }

  lemma MarkKeeps(s: System, strict: bool, o: Owner, l: Locator, committed: int, f: Fault)
    requires Inv(s, strict) && l.Owner() == o && HeldAt(Ctx(s, strict), committed, l)
    requires Settled(s.boot, o, l)
    requires var m := s.Mutation(o); m.Idle? || m.Marking?
    requires var v := View(s.Ledger(o)); l in v && v[l].phase == Staged ==> v[l].expectedGeneration + 1 == committed
    ensures Inv(Apply(s, o, MarkCommitted(o, s.Ledger(o), l, committed - 1, committed), f), strict)
  {
    LedgerFacts(s, strict, o);
    hide *;
    MarkReady(Ctx(s, strict), o, s.Mutation(o), s.Ledger(o), l, committed);
    WriteIfOk(s, strict, o, l, MarkCommitted(o, s.Ledger(o), l, committed - 1, committed), f);
  }

  /** An accepted ledger operation whose new entry is in order and goes unnoticed. */
  ghost predicate WriteReady(k: Context, o: Owner, m: Mutation, es: seq<Entry>, r: LedgerResult, l: Locator) {
    r.Ok? ==> && Touches(es, r.entries, l) && |r.entries| <= MAX_ENTRIES && l in View(r.entries)
              && View(r.entries)[l].ref == l && EntryOk(k, o, View(r.entries)[l])
              && Unnoticed(k, m, View(es), View(r.entries), l)
  }

  lemma WriteIfOk(s: System, strict: bool, o: Owner, l: Locator, r: LedgerResult, f: Fault)
    requires Inv(s, strict) && l.Owner() == o
    requires Settled(s.boot, o, l)
    requires WriteReady(Ctx(s, strict), o, s.Mutation(o), s.Ledger(o), r, l)
    ensures Inv(Apply(s, o, r, f), strict)
  {
    AppliedIs(s, o, r, f);
    if r.Ok? && f != Refused {
      LedgerWrite(s, strict, o, l, r.entries);
    }
    hide Inv, Apply, Settled, Unnoticed, EntryOk, Touches, View;
  }

  /** The entry of a doomed locator may become pending and count attempts. */
  lemma PendingEntry(k: Context, o: Owner, es: seq<Entry>, es': seq<Entry>, l: Locator)
    requires EntriesOk(k, o, View(es)) && OwnDoomed(k, o, l)
    requires l in View(es) && l in View(es')
    requires var e, e' := View(es)[l], View(es')[l];
             || (e.phase == Active && e' == e.(phase := PendingCleanup, reason := Retired))
             || (e.phase == Staged && e' == e.(phase := PendingCleanup, reason := CandidateAbandoned))
             || (e.phase == PendingCleanup && e.attempts < MAX_ATTEMPTS && e' == e.(attempts := e.attempts + 1))
    ensures View(es')[l].ref == l && EntryOk(k, o, View(es')[l])
  {
    assert EntryOk(k, o, View(es)[l]);
  }

  lemma DoomedOwner(k: Context, o: Owner, l: Locator)
    requires OwnDoomed(k, o, l)
    ensures l.Owner() == o
  {}

  lemma RetireReady(k: Context, o: Owner, m: Mutation, es: seq<Entry>, l: Locator, g: int)
    requires Unique(es) && |es| <= MAX_ENTRIES && EntriesOk(k, o, View(es)) && OwnDoomed(k, o, l)
    ensures WriteReady(k, o, m, es, Retire(o, es, l, g), l)
  {
    var r := Retire(o, es, l, g);
    RetireEffect(o, es, l, g);
    if r.Ok? {
      PendingEntry(k, o, es, r.entries, l);
    }
    hide Retire, View, Touches, EntriesOk, EntryOk, Find;
  }

  lemma RetireKeeps(s: System, strict: bool, o: Owner, l: Locator, g: int, f: Fault)
    requires Inv(s, strict) && OwnDoomed(Ctx(s, strict), o, l)
    requires Settled(s.boot, o, l)
    ensures Inv(Apply(s, o, Retire(o, s.Ledger(o), l, g), f), strict)
  {
    LedgerFacts(s, strict, o);
    hide *;
    DoomedOwner(Ctx(s, strict), o, l);
    RetireReady(Ctx(s, strict), o, s.Mutation(o), s.Ledger(o), l, g);
    WriteIfOk(s, strict, o, l, Retire(o, s.Ledger(o), l, g), f);
  }

  lemma AbandonReady(k: Context, o: Owner, m: Mutation, es: seq<Entry>, l: Locator)
    requires Unique(es) && |es| <= MAX_ENTRIES && EntriesOk(k, o, View(es)) && OwnDoomed(k, o, l)
    ensures WriteReady(k, o, m, es, AbandonStaged(o, es, l), l)
  {
    var r := AbandonStaged(o, es, l);
    AbandonStagedEffect(o, es, l);
    if r.Ok? {
      PendingEntry(k, o, es, r.entries, l);
    }
    hide AbandonStaged, View, Touches, EntriesOk, EntryOk, Find;
  }

  lemma AbandonKeeps(s: System, strict: bool, o: Owner, l: Locator, f: Fault)
    requires Inv(s, strict) && OwnDoomed(Ctx(s, strict), o, l)
    requires Settled(s.boot, o, l)
    ensures Inv(Apply(s, o, AbandonStaged(o, s.Ledger(o), l), f), strict)
  {
    LedgerFacts(s, strict, o);
    hide *;
    DoomedOwner(Ctx(s, strict), o, l);
    AbandonReady(Ctx(s, strict), o, s.Mutation(o), s.Ledger(o), l);
    WriteIfOk(s, strict, o, l, AbandonStaged(o, s.Ledger(o), l), f);
  }

  lemma AttemptReady(k: Context, o: Owner, m: Mutation, es: seq<Entry>, l: Locator)
    requires Unique(es) && |es| <= MAX_ENTRIES && EntriesOk(k, o, View(es)) && OwnDoomed(k, o, l)
    ensures WriteReady(k, o, m, es, MarkCleanupAttempt(o, es, l), l)
  {
    var r := MarkCleanupAttempt(o, es, l);
    AttemptEffect(o, es, l);
    if r.Ok? {
      PendingEntry(k, o, es, r.entries, l);
    }
    hide MarkCleanupAttempt, View, Touches, EntriesOk, EntryOk, Find;
  }

  lemma AttemptKeeps(s: System, strict: bool, o: Owner, l: Locator, f: Fault)
    requires Inv(s, strict) && OwnDoomed(Ctx(s, strict), o, l)
    requires Settled(s.boot, o, l)
    ensures Inv(Apply(s, o, MarkCleanupAttempt(o, s.Ledger(o), l), f), strict)
  {
    LedgerFacts(s, strict, o);
    hide *;
    DoomedOwner(Ctx(s, strict), o, l);
    AttemptReady(Ctx(s, strict), o, s.Mutation(o), s.Ledger(o), l);
    WriteIfOk(s, strict, o, l, MarkCleanupAttempt(o, s.Ledger(o), l), f);
  }

  lemma AcknowledgeReady(k: Context, o: Owner, m: Mutation, es: seq<Entry>, l: Locator)
    requires Unique(es) && |es| <= MAX_ENTRIES && OwnDoomed(k, o, l)
    ensures var r := Acknowledge(o, es, l);
            r.Ok? ==> Touches(es, r.entries, l) && |r.entries| <= MAX_ENTRIES && l !in View(r.entries)
                      && Unnoticed(k, m, View(es), View(r.entries), l)
  {
    AcknowledgeEffect(o, es, l);
    hide Acknowledge, View, Touches, Find;
  }

  lemma AcknowledgeKeeps(s: System, strict: bool, o: Owner, l: Locator, f: Fault)
    requires Inv(s, strict) && OwnDoomed(Ctx(s, strict), o, l) && l !in s.vault
    requires Settled(s.boot, o, l)
    ensures Inv(Apply(s, o, Acknowledge(o, s.Ledger(o), l), f), strict)
  {
    LedgerFacts(s, strict, o);
    hide *;
    var r := Acknowledge(o, s.Ledger(o), l);
    DoomedOwner(Ctx(s, strict), o, l);
    AcknowledgeReady(Ctx(s, strict), o, s.Mutation(o), s.Ledger(o), l);
    AppliedIs(s, o, r, f);
    if r.Ok? && f != Refused {
      LedgerWrite(s, strict, o, l, r.entries);
    }
  }

  lemma AppliedIs(s: System, o: Owner, r: LedgerResult, f: Fault)
    ensures Apply(s, o, r, f) == if r.Ok? && f != Refused then s.WithLedger(o, r.entries) else s
  {}

  /** A settled locator may leave the vault: nothing that still matters reads it. */
  lemma DeleteKeeps(s: System, strict: bool, o: Owner, l: Locator)
    requires Inv(s, strict) && OwnDoomed(Ctx(s, strict), o, l)
    ensures Inv(s.(vault := s.vault - {l}), strict)
  {
    hide *;
    var k := Ctx(s, strict);
    var t := s.(vault := s.vault - {l});
    PartFacts(s, strict, o);
    DeleteFrame(s, strict, o, l);
    CandidateFacts(k, o, View(s.Ledger(o)), s.vault, s.Mutation(o));
    CandidateFacts(k, Other(o), View(s.Ledger(Other(o))), s.vault, s.Mutation(Other(o)));
    MutationExtends(k, k, o, View(s.Ledger(o)), s.vault, t.vault, s.Mutation(o));
    MutationExtends(k, k, Other(o), View(s.Ledger(Other(o))), s.vault, t.vault, s.Mutation(Other(o)));
    TasksExtend(k, k, s.vault, t.vault, s.tasks);
    BootLosesSecret(k, View(s.Ledger(BootOwner(s.boot))), s.vault, t.vault, s.boot);
    DeleteVault(s, strict, o, l);
    Assemble(t, strict, k, o);
  }

  lemma DeleteFrame(s: System, strict: bool, o: Owner, l: Locator)
    requires Inv(s, strict) && OwnDoomed(Ctx(s, strict), o, l)
    ensures var t := s.(vault := s.vault - {l});
            && Ctx(t, strict) == Ctx(s, strict) && Extends(Ctx(s, strict), Ctx(s, strict))
            && t.Ledger(o) == s.Ledger(o) && t.Ledger(Other(o)) == s.Ledger(Other(o))
            && t.Mutation(o) == s.Mutation(o) && t.Mutation(Other(o)) == s.Mutation(Other(o))
            && t.Ledger(BootOwner(s.boot)) == s.Ledger(BootOwner(s.boot))
            && AtRestWhileRecovering(t) && Doomed(Ctx(s, strict), l)
  {}

  lemma DeleteVault(s: System, strict: bool, o: Owner, l: Locator)
    requires VaultOk(s) && (strict ==> RuntimesOk(s)) && OwnDoomed(Ctx(s, strict), o, l)
    ensures VaultOk(s.(vault := s.vault - {l})) && (strict ==> RuntimesOk(s.(vault := s.vault - {l})))
  {
    var t := s.(vault := s.vault - {l});
    forall x | x in t.vault
      ensures Accounted(t, x)
    {
      assert Accounted(s, x);
    }
    if strict {
      assert l !in UsedRefs(s);
    }
  }

  lemma CandidateFacts(k: Context, o: Owner, v: map<Locator, Entry>, vault: set<Locator>, m: Mutation)
    requires MutationOk(k, o, v, vault, m)
    ensures forall l :: l in Candidates(m) ==> l in k.pre && !Named(k, l) && l !in k.used && l in k.issued
    ensures Candidates(m) <= k.pre
  {}

  lemma BootLosesSecret(k: Context, v: map<Locator, Entry>, vault: set<Locator>, vault': set<Locator>, b: Boot)
    requires BootOk(k, v, vault, b) && vault' <= vault
    ensures BootOk(k, v, vault', b)
  {}

  lemma CleanupShape(s: System, o: Owner, c: Cleanup, f: Fault)
    ensures CleanupStep(s, o, c, f).0 ==
            match c
            case Rest => s
            case Due(l) => Apply(s, o, MarkCleanupAttempt(o, s.Ledger(o), l), f)
            case Attempted(l) => if f == Refused then s else s.(vault := s.vault - {l})
            case Deleted(l) => Apply(s, o, Acknowledge(o, s.Ledger(o), l), f)
  {}

  lemma CleanupFacts(k: Context, o: Owner, vault: set<Locator>, c: Cleanup)
    requires CleanupOk(k, o, vault, c)
    ensures c != Rest ==> OwnDoomed(k, o, c.l) && (c.Deleted? ==> c.l !in vault)
  {}

  lemma NotReconcilingSettles(b: Boot, o: Owner)
    requires b.Recovering? ==> !b.stage.Reconcile?
    ensures forall l :: Settled(b, o, l)
  {}

  lemma CleanupKeeps(s: System, strict: bool, o: Owner, c: Cleanup, f: Fault)
    requires Inv(s, strict) && CleanupOk(Ctx(s, strict), o, s.vault, c)
    requires s.boot.Recovering? ==> !s.boot.stage.Reconcile?
    ensures Inv(CleanupStep(s, o, c, f).0, strict)
  {
    hide *;
    CleanupShape(s, o, c, f);
    CleanupFacts(Ctx(s, strict), o, s.vault, c);
    NotReconcilingSettles(s.boot, o);
    match c
    case Rest =>
    case Due(l) => AttemptKeeps(s, strict, o, l, f);
    case Attempted(l) => DeleteKeeps(s, strict, o, l);
    case Deleted(l) => AcknowledgeKeeps(s, strict, o, l, f);
  }

  /** What a cleanup step leaves alone, and that it stays on a doomed locator. */
  lemma CleanupFrame(s: System, strict: bool, o: Owner, c: Cleanup, f: Fault)
    requires CleanupOk(Ctx(s, strict), o, s.vault, c)
    ensures var (t, c') := CleanupStep(s, o, c, f);
            && t == s.(modelLedger := t.modelLedger, voiceLedger := t.voiceLedger, vault := t.vault)
            && Ctx(t, strict) == Ctx(s, strict) && t.vault <= s.vault
            && CleanupOk(Ctx(t, strict), o, t.vault, c')
  {}

  lemma PendingIsDoomed(s: System, strict: bool, o: Owner)
    requires Inv(s, strict)
    ensures forall l :: l in Pending(s.Ledger(o)) ==> OwnDoomed(Ctx(s, strict), o, l)
  {
    forall e | e in s.Ledger(o) && e.phase == PendingCleanup
      ensures OwnDoomed(Ctx(s, strict), o, e.ref)
    {
      ViewIsLedger(s.Ledger(o));
      assert EntryOk(Ctx(s, strict), o, View(s.Ledger(o))[e.ref]);
    }
  }

  lemma SweepKeeps(s: System, strict: bool, o: Owner, w: Sweep, pick: Locator, f: Fault)
    requires Inv(s, strict) && SweepOk(Ctx(s, strict), o, s.vault, w)
    requires s.boot.Recovering? ==> !s.boot.stage.Reconcile?
    ensures Inv(SweepStep(s, o, w, pick, f).0, strict)
  {
    if w.Cleaning? {
      CleanupKeeps(s, strict, o, w.cleanup, f);
    }
  }

  lemma SweepFrame(s: System, strict: bool, o: Owner, w: Sweep, pick: Locator, f: Fault)
    requires Inv(s, strict) && SweepOk(Ctx(s, strict), o, s.vault, w)
    ensures var (t, w') := SweepStep(s, o, w, pick, f);
            && t == s.(modelLedger := t.modelLedger, voiceLedger := t.voiceLedger, vault := t.vault)
            && Ctx(t, strict) == Ctx(s, strict) && t.vault <= s.vault
            && (w'.Some? ==> SweepOk(Ctx(t, strict), o, t.vault, w'.value))
  {
    if w.ListPending? {
      PendingIsDoomed(s, strict, o);
    } else if w.Cleaning? {
      CleanupFrame(s, strict, o, w.cleanup, f);
    }
  }

  // -------------------------------------------------------------------------
  // Changes of context
  // -------------------------------------------------------------------------

  lemma MutationExtends(k: Context, k': Context, o: Owner, v: map<Locator, Entry>, vault: set<Locator>,
                        vault': set<Locator>, m: Mutation)
    requires MutationOk(k, o, v, vault, m) && Extends(k, k')
    requires Candidates(m) <= k'.pre && forall l :: l in Candidates(m) ==> !Named(k', l) && l !in k'.used
    requires k.config.Some? ==> k'.config.Some? && Refs(k'.config.value, o) == Refs(k.config.value, o)
    requires forall g :: g in k.held ==> g in k'.held && k'.held[g] == k.held[g]
    requires forall l :: l in vault && l !in vault' ==> Doomed(k, l)
    requires forall l :: l in vault' && l !in vault ==> !Doomed(k, l)
    ensures MutationOk(k', o, v, vault', m)
  {
    if m.Staging? || m.Writing? {
      assert forall x :: x in m.staged ==> x in PlanRefs(m.plan) && x in k.pre;
    }
  }

  lemma WithMutationFrame(s: System, strict: bool, o: Owner, m: Mutation)
    ensures var t := s.WithMutation(o, m);
            && t.Ledger(o) == s.Ledger(o) && t.Ledger(Other(o)) == s.Ledger(Other(o))
            && t.Mutation(o) == m && t.Mutation(Other(o)) == s.Mutation(Other(o))
            && t.modelLedger == s.modelLedger && t.voiceLedger == s.voiceLedger
            && t.config == s.config && t.vault == s.vault && t.tasks == s.tasks && t.boot == s.boot
            && Ctx(t, strict).config == s.config && Ctx(t, strict).held == s.held
  {}

  /** A settings change moves on without a durable effect; its candidates may be given up. */
  lemma MutationChange(s: System, strict: bool, o: Owner, m: Mutation)
    requires Inv(s, strict) && s.boot == Serving && Candidates(m) <= Candidates(s.Mutation(o))
    requires MutationOk(Ctx(s.WithMutation(o, m), strict), o, View(s.Ledger(o)), s.vault, m)
    requires strict ==> MarkingRuntimesOk(s.runtimes, s.mounted, o, m)
    ensures Inv(s.WithMutation(o, m), strict)
  {
    hide *;
    var t := s.WithMutation(o, m);
    var k, k' := Ctx(s, strict), Ctx(t, strict);
    var w := s.Mutation(Other(o));
    var v, v2 := View(s.Ledger(o)), View(s.Ledger(Other(o)));
    PartFacts(s, strict, o);
    WithMutationFrame(s, strict, o, m);
    FewerCandidates(s, strict, o, m);
    LedgerExtends(k, k', o, s.Ledger(o));
    LedgerExtends(k, k', Other(o), s.Ledger(Other(o)));
    MutationExtends(k, k', Other(o), v2, s.vault, s.vault, w);
    TasksExtend(k, k', s.vault, s.vault, s.tasks);
    VaultSame(s, t);
    if strict {
      MutationChangeRuntimes(s, o, m);
    }
    ServingOk(k', View(t.Ledger(BootOwner(t.boot))), s.vault);
    ServingAtRest(t);
    Assemble(t, strict, k', o);
  }

  lemma ServingAtRest(t: System)
    requires t.boot == Serving
    ensures AtRestWhileRecovering(t)
  {}

  /** A ledger carries over when the configuration names nothing new. */
  lemma LedgerExtends(k: Context, k': Context, o: Owner, es: seq<Entry>)
    requires LedgerOk(k, o, es) && Extends(k, k') && forall l :: Named(k', l) ==> Named(k, l)
    ensures LedgerOk(k', o, es)
  {
    EntriesExtend(k, k', o, View(es));
  }

  lemma FewerCandidates(s: System, strict: bool, o: Owner, m: Mutation)
    requires Candidates(m) <= Candidates(s.Mutation(o))
    requires MutationOk(Ctx(s, strict), Other(o), View(s.Ledger(Other(o))), s.vault, s.Mutation(Other(o)))
    requires ConfigOk(Ctx(s, strict))
    ensures var k, k' := Ctx(s, strict), Ctx(s.WithMutation(o, m), strict);
            && Extends(k, k') && k'.config == k.config && k'.held == k.held && k'.used == k.used
            && Candidates(s.Mutation(Other(o))) <= k'.pre
            && (forall l :: l in Candidates(s.Mutation(Other(o))) ==> !Named(k', l) && l !in k'.used)
            && (forall l :: Named(k', l) ==> Named(k, l)) && ConfigOk(k')
  {}

  lemma VaultSame(s: System, t: System)
    requires VaultOk(s) && t.config == s.config && t.vault == s.vault
    requires t.modelLedger == s.modelLedger && t.voiceLedger == s.voiceLedger
    ensures VaultOk(t)
  {
    forall x | x in t.vault
      ensures Accounted(t, x)
    {
      assert Accounted(s, x);
    }
  }

  lemma MutationChangeRuntimes(s: System, o: Owner, m: Mutation)
    requires RuntimesOk(s) && Candidates(m) <= Candidates(s.Mutation(o))
             && MarkingRuntimesOk(s.runtimes, s.mounted, o, m)
    ensures RuntimesOk(s.WithMutation(o, m))
  {}
}
