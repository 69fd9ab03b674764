/** What the credential protocol guarantees in every state of every sound run. */
module ProtocolGuarantees {
  import opened Wrappers
  import opened Configurations
  import opened CleanupLedgers
  import opened CredentialProtocol
  import opened ProtocolInvariant
  import opened ProtocolSteps
  import opened ProtocolCommit
  import opened ProtocolAdvance
  import opened ProtocolActions
  import opened ProtocolRuntimes
  import opened ProtocolRecovery
  import opened ProtocolRuns
  import opened ProtocolHistory

  /** Some sound run from the first start leads here. */
  ghost predicate Reachable(s: System, strict: bool) {
    exists actions :: SoundRun(Initial, actions, strict) && Exec(Initial, actions) == s
  }

  lemma ReachableIsOk(s: System, strict: bool)
    requires Reachable(s, strict)
    ensures Inv(s, strict)
  {
    var actions :| SoundRun(Initial, actions, strict) && Exec(Initial, actions) == s;
    hide *;
    InitialOk(strict);
    RunKeeps(Initial, strict, actions);
  }

  // -------------------------------------------------------------------------
  // Secrets
  // -------------------------------------------------------------------------

  /** The credentials that the durable configuration names are never deleted. */
  lemma ConfiguredSecretsAreStored(s: System)
    requires Reachable(s, false)
    ensures s.config.Some? ==> AllRefs(s.config.value) <= s.vault
  {
    hide *;
    ReachableIsOk(s, false);
    PartFacts(s, false, ModelOwner);
    VaultFacts(s);
  }

  lemma VaultFacts(s: System)
    requires VaultOk(s)
    ensures s.config.Some? ==> AllRefs(s.config.value) <= s.vault
    ensures forall l :: l in s.vault ==>
            (s.config.Some? && l in AllRefs(s.config.value)) || l in View(s.Ledger(l.Owner())) || !l.managed
  {
    assert forall l :: l in s.vault ==> Accounted(s, l);
  }

  /** No orphan: a secret in the vault is named by the configuration, or ledgered by the
      owner of its track, or has a locator that the settings code cannot parse. */
  lemma NoOrphanSecret(s: System, l: Locator)
    requires Reachable(s, false) && l in s.vault
    ensures || (s.config.Some? && l in AllRefs(s.config.value))
            || (exists e :: e in s.Ledger(l.Owner()) && e.ref == l)
            || !l.managed
  {
    hide *;
    ReachableIsOk(s, false);
    PartFacts(s, false, ModelOwner);
    VaultFacts(s);
    if l in View(s.Ledger(l.Owner())) {
      LedgeredEntry(s.Ledger(l.Owner()), l);
    }
  }

  lemma LedgeredEntry(es: seq<Entry>, l: Locator)
    requires l in View(es)
    ensures exists e :: e in es && e.ref == l
  {
    assert es[Find(es, l)] in es;
  }

  /** An entry of a ledger, by its own locator. */
  lemma EntryFacts(s: System, strict: bool, o: Owner, e: Entry)
    requires Inv(s, strict) && e in s.Ledger(o)
    ensures EntryOk(Ctx(s, strict), o, e)
  {
    LedgerFacts(s, strict, o);
    ViewIsLedger(s.Ledger(o));
    assert View(s.Ledger(o))[e.ref] == e;
    hide Inv, EntryOk;
  }

  /** What is pending deletion is never named by the configuration, by a change that may
      still commit, or - without overlapping retries - by an undrained runtime generation. */
  lemma PendingIsUnused(s: System, strict: bool, o: Owner, e: Entry)
    requires Reachable(s, strict) && e in s.Ledger(o) && e.phase == PendingCleanup
    ensures s.config.Some? ==> e.ref !in AllRefs(s.config.value)
    ensures e.ref !in Candidates(s.Mutation(ModelOwner)) && e.ref !in Candidates(s.Mutation(VoiceOwner))
    ensures strict ==> forall r :: r in s.runtimes ==> e.ref !in s.runtimes[r].refs
  {
    hide *;
    ReachableIsOk(s, strict);
    EntryFacts(s, strict, o, e);
    DoomedFacts(s, strict, e.ref);
    PendingDoomed(Ctx(s, strict), o, e);
  }

  lemma PendingDoomed(k: Context, o: Owner, e: Entry)
    requires EntryOk(k, o, e) && e.phase == PendingCleanup
    ensures Doomed(k, e.ref)
  {}

  lemma DoomedFacts(s: System, strict: bool, l: Locator)
    ensures Doomed(Ctx(s, strict), l) ==>
              && (s.config.Some? ==> l !in AllRefs(s.config.value))
              && l !in Candidates(s.Mutation(ModelOwner)) && l !in Candidates(s.Mutation(VoiceOwner))
              && (strict ==> forall r :: r in s.runtimes ==> l !in s.runtimes[r].refs)
  {
    if strict {
      assert forall r, x :: r in s.runtimes && x in s.runtimes[r].refs ==> x in UsedRefs(s);
    }
  }

  // -------------------------------------------------------------------------
  // Drain receipts
  // -------------------------------------------------------------------------

  lemma ReceiptsOk(s: System, id: nat)
    requires Inv(s, true) && id in s.tasks
    ensures ReceiptOk(s.runtimes, s.tasks[id])
  {
    PartFacts(s, true, ModelOwner);
    RuntimesApart(s, ModelOwner);
    hide Inv, RuntimesOk, ReceiptOk;
  }

  lemma ReceiptIs(rs: map<nat, Runtime>, w: Task)
    requires w.AwaitDrain? && ReceiptOk(rs, w)
    ensures forall n :: n in rs && rs[n].refs * w.replaced != {} ==> w.serial == Some(n)
  {}

  /** A swap hands out the receipt of the generation it replaces, and in every reachable
      state of a strict run that receipt is enough: no other generation uses any of what
      the swap replaced. */
  lemma SwapReceipt(s: System, o: Owner, up: bool)
    requires Reachable(s, true) && s.boot == Serving && Swaps(s, o, up)
    ensures var t := Step(s, Mount(o, up));
            var w := AwaitDrain(o, ManagedRefs(s.Mutation(o).current, o),
                                if o in s.mounted then Some(s.mounted[o]) else None);
            && s.nextTask in t.tasks && t.tasks[s.nextTask] == w
            && forall n :: n in t.runtimes && t.runtimes[n].refs * w.replaced != {} ==> w.serial == Some(n)
  {
    hide *;
    var t := Step(s, Mount(o, up));
    ReachableIsOk(s, true);
    StepShape(s, Mount(o, up));
    MountShape(s, o, up);
    MountIsSound(s, o, up);
    StepKeeps(s, true, Mount(o, up));
    SwappedFrame(s, o, false);
    SwapTask(s, o);
    ReceiptsOk(t, s.nextTask);
    ReceiptIs(t.runtimes, t.tasks[s.nextTask]);
  }

  lemma SwapTask(s: System, o: Owner)
    requires s.Mutation(o).Marking?
    ensures Receipt(s, o) == AwaitDrain(o, ManagedRefs(s.Mutation(o).current, o),
                                        if o in s.mounted then Some(s.mounted[o]) else None)
  {}

  lemma MountIsSound(s: System, o: Owner, up: bool)
    ensures Sound(s, Mount(o, up), true)
  {}

  lemma ReplacedIs(k: Context, vault: set<Locator>, w: Task)
    requires w.AwaitDrain? && TaskOk(k, vault, w)
    ensures w == AwaitDrain(w.owner, w.replaced, w.serial)
  {}

  lemma OwnDoomedIs(k: Context, o: Owner, l: Locator)
    requires OwnDoomed(k, o, l)
    ensures Doomed(k, l)
  {}

  /** In every reachable state, once the generation of a receipt is gone, nothing uses what
      was replaced under it: not the configuration, not a change that may still commit,
      and in strict runs no generation that still has leases. */
  lemma DrainedIsUnused(s: System, strict: bool, id: nat, l: Locator)
    requires Reachable(s, strict) && id in s.tasks && s.tasks[id].AwaitDrain? && l in s.tasks[id].replaced
    requires s.tasks[id].serial.Some? ==> s.tasks[id].serial.value !in s.runtimes
    ensures s.config.Some? ==> l !in AllRefs(s.config.value)
    ensures l !in Candidates(s.Mutation(ModelOwner)) && l !in Candidates(s.Mutation(VoiceOwner))
    ensures strict ==> forall r :: r in s.runtimes ==> l !in s.runtimes[r].refs
  {
    hide *;
    var w := s.tasks[id];
    ReachableIsOk(s, strict);
    PartFacts(s, strict, ModelOwner);
    ReplacedIs(Ctx(s, strict), s.vault, w);
    if strict {
      ReceiptsOk(s, id);
    }
    DrainedIsDoomed(s, strict, w.owner, w.replaced, w.serial);
    OwnDoomedIs(Ctx(s, strict), w.owner, l);
    DoomedFacts(s, strict, l);
  }

  /** Drain before delete: a runtime generation that still holds leases keeps its secrets. */
  lemma LeasedSecretsAreStored(s: System, r: nat)
    requires Reachable(s, true) && r in s.runtimes
    ensures s.runtimes[r].refs <= s.vault
  {
    hide *;
    ReachableIsOk(s, true);
    PartFacts(s, true, ModelOwner);
    LeasedFacts(s, r);
  }

  lemma LeasedFacts(s: System, r: nat)
    requires RuntimesOk(s) && r in s.runtimes
    ensures s.runtimes[r].refs <= s.vault
  {
    assert UseOk(s.issued, s.vault, Candidates(s.modelMutation) + Candidates(s.voiceMutation), s.runtimes[r]);
  }

  // -------------------------------------------------------------------------
  // Ledgers
  // -------------------------------------------------------------------------

  lemma ActiveOwners(k: Context, o: Owner, es: seq<Entry>)
    requires ConfigOk(k) && forall e :: e in es ==> EntryOk(k, o, e)
    requires Unique(es)
    ensures OneActiveOwner(es)
  {
    forall i, j | 0 <= i < j < |es| && es[i].phase == Active && es[j].phase == Active
    && es[i].ref.Track() == es[j].ref.Track()
      ensures es[i].committedGeneration != es[j].committedGeneration
    {
      assert EntryOk(k, o, es[i]) && EntryOk(k, o, es[j]);
      if es[i].committedGeneration == es[j].committedGeneration {
        RefsFollowTracks(k.held[es[i].committedGeneration.value]);
      }
    }
  }

  /** Both ledgers are accepted by the next reload, whatever happened before it. */
  lemma LedgersReload(s: System, o: Owner)
    requires Reachable(s, false)
    ensures ValidLedger(o, s.Ledger(o))
  {
    hide *;
    var k := Ctx(s, false);
    ReachableIsOk(s, false);
    PartFacts(s, false, ModelOwner);
    LedgerFacts(s, false, o);
    forall e | e in s.Ledger(o)
      ensures EntryOk(k, o, e) && ValidEntry(o, e)
    {
      EntryFacts(s, false, o, e);
      EntryValid(k, o, e);
    }
    ActiveOwners(k, o, s.Ledger(o));
    ValidIs(o, s.Ledger(o));
  }

  lemma ValidIs(o: Owner, es: seq<Entry>)
    requires |es| <= MAX_ENTRIES && (forall e :: e in es ==> ValidEntry(o, e)) && Unique(es) && OneActiveOwner(es)
    ensures ValidLedger(o, es)
  {}

  lemma EntryValid(k: Context, o: Owner, e: Entry)
    requires EntryOk(k, o, e)
    ensures ValidEntry(o, e)
  {}

  /** Every entry with a committed generation names what the configuration named when that
      generation was durable, although commits of the other owner share the counter. */
  lemma EntriesNameTheirGeneration(actions: seq<Action>, o: Owner, e: Entry)
    requires SoundRun(Initial, actions, false)
    requires e in Exec(Initial, actions).Ledger(o) && e.committedGeneration.Some?
    ensures exists c :: WasDurable(actions, |actions|, c) && c.generation == e.committedGeneration.value
    ensures forall c :: WasDurable(actions, |actions|, c) && c.generation == e.committedGeneration.value ==>
            e.ref in Refs(c, o)
  {
    hide *;
    var s, n := Exec(Initial, actions), |actions|;
    var k := Ctx(s, false);
    InitialOk(false);
    RunKeeps(Initial, false, actions);
    WholeRun(actions);
    PartFacts(s, false, o);
    EntryFacts(s, false, o, e);
    CommittedEntry(k, o, e);
    HistoryIsThePast(actions, false, n, k.held[e.committedGeneration.value]);
    forall c | WasDurable(actions, n, c) && c.generation == e.committedGeneration.value
      ensures e.ref in Refs(c, o)
    {
      HistoryIsThePast(actions, false, n, c);
    }
  }

  lemma WholeRun(actions: seq<Action>)
    ensures At(actions, |actions|) == Exec(Initial, actions)
  {
    assert actions[..|actions|] == actions;
  }

  lemma CommittedEntry(k: Context, o: Owner, e: Entry)
    requires ConfigOk(k) && EntryOk(k, o, e) && e.committedGeneration.Some?
    ensures var g := e.committedGeneration.value;
            g in k.held && e.ref in Refs(k.held[g], o) && k.held[g].generation == g
  {
    RefsFollowTracks(k.held[e.committedGeneration.value]);
  }

  // -------------------------------------------------------------------------
  // Refusals that no caller can meet
  // -------------------------------------------------------------------------

  /** A locator may always be recorded under a generation that named it: no other entry of
      its track carries that generation. */
  lemma OwnersNeverCollide(k: Context, o: Owner, es: seq<Entry>, l: Locator, g: int)
    requires ConfigOk(k) && Unique(es) && (forall e :: e in es ==> EntryOk(k, o, e)) && HeldAt(k, g, l)
    ensures AdoptCommitted(o, es, l, g) != Err(OwnerConflict)
    ensures MarkCommitted(o, es, l, g - 1, g) != Err(OwnerConflict)
  {
    RefsFollowTracks(k.held[g]);
    forall i | 0 <= i < |es| && es[i].committedGeneration == Some(g) && es[i].ref.Track() == l.Track()
      ensures i == Find(es, l)
    {
      assert EntryOk(k, o, es[i]) && HeldAt(k, g, es[i].ref);
      assert es[i].ref == l;
    }
  }

  /** Neither ledger operation refuses `l` under generation `g` as a duplicate owner. */
  predicate NoConflict(o: Owner, es: seq<Entry>, l: Locator, g: int) {
    AdoptCommitted(o, es, l, g) != Err(OwnerConflict) && MarkCommitted(o, es, l, g - 1, g) != Err(OwnerConflict)
  }

  /** What a change is about to adopt or mark meets no duplicate-owner refusal. */
  ghost predicate ChangeMeetsNoConflict(o: Owner, es: seq<Entry>, m: Mutation) {
    && (m.Adopting? ==> forall l :: l in m.adopt ==> NoConflict(o, es, l, m.current.generation))
    && (m.Marking? ==> forall l :: l in m.mark + m.fallback ==> NoConflict(o, es, l, m.committed))
  }

  /** Nor does what start-up is about to adopt or promote. */
  ghost predicate StartUpMeetsNoConflict(s: System, o: Owner, r: Recovery) {
    && (r.AdoptOwners? && s.config.Some? ==>
        forall l :: l in r.adopt ==> NoConflict(o, s.Ledger(o), l, s.config.value.generation))
    && (r.Reconcile? ==> forall l :: l in r.entries && r.entries[l].phase == Staged && l in ConfigRefs(s, o)
                           ==> NoConflict(o, s.Ledger(o), l, r.entries[l].expectedGeneration + 1))
  }

  lemma HeldMeansNoConflict(s: System, strict: bool, o: Owner)
    requires Inv(s, strict)
    ensures forall l, g :: HeldAt(Ctx(s, strict), g, l) ==> NoConflict(o, s.Ledger(o), l, g)
  {
    PartFacts(s, strict, o);
    LedgerFacts(s, strict, o);
    hide Inv, EntryOk, HeldAt, ConfigOk, AdoptCommitted, MarkCommitted, LedgerOk, MutationOk, VaultOk, RuntimesOk;
    forall e | e in s.Ledger(o)
      ensures EntryOk(Ctx(s, strict), o, e)
    {
      EntryFacts(s, strict, o, e);
    }
    forall l, g | HeldAt(Ctx(s, strict), g, l)
      ensures NoConflict(o, s.Ledger(o), l, g)
    {
      OwnersNeverCollide(Ctx(s, strict), o, s.Ledger(o), l, g);
    }
  }

  lemma ChangeConflicts(k: Context, o: Owner, es: seq<Entry>, vault: set<Locator>, m: Mutation)
    requires MutationOk(k, o, View(es), vault, m)
    requires forall l, g :: HeldAt(k, g, l) ==> NoConflict(o, es, l, g)
    ensures ChangeMeetsNoConflict(o, es, m)
  {
    if m.Adopting? {
      AdoptingFacts(k, o, View(es), vault, m);
    } else if m.Marking? {
      MarkingFacts(k, o, View(es), vault, m);
    }
    hide MutationOk, HeldAt, NoConflict;
  }

  lemma StartUpConflicts(s: System, strict: bool, o: Owner, r: Recovery)
    requires Inv(s, strict) && s.boot == Recovering(o, r)
    requires forall l, g :: HeldAt(Ctx(s, strict), g, l) ==> NoConflict(o, s.Ledger(o), l, g)
    ensures StartUpMeetsNoConflict(s, o, r)
  {
    hide Inv, HeldAt, NoConflict, Ctx, View, Find;
    AdoptionConflicts(s, strict, o, r);
    if r.Reconcile? {
      forall l | l in r.entries && r.entries[l].phase == Staged && l in ConfigRefs(s, o)
        ensures NoConflict(o, s.Ledger(o), l, r.entries[l].expectedGeneration + 1)
      {
        PromotionConflicts(s, strict, o, r.entries, l);
      }
    }
  }

  lemma AdoptionConflicts(s: System, strict: bool, o: Owner, r: Recovery)
    requires Inv(s, strict) && s.boot == Recovering(o, r)
    requires forall l, g :: HeldAt(Ctx(s, strict), g, l) ==> NoConflict(o, s.Ledger(o), l, g)
    ensures r.AdoptOwners? && s.config.Some? ==>
            forall l :: l in r.adopt ==> NoConflict(o, s.Ledger(o), l, s.config.value.generation)
  {
    hide *;
    if r.AdoptOwners? {
      assert s.boot == Recovering(o, AdoptOwners(r.adopt));
      BootFacts(s, strict, o);
      PartFacts(s, strict, o);
      AdoptOwnersFacts(Ctx(s, strict), View(s.Ledger(o)), s.vault, o, r.adopt);
    }
  }

  lemma PromotionConflicts(s: System, strict: bool, o: Owner, entries: map<Locator, Entry>, l: Locator)
    requires Inv(s, strict) && s.boot == Recovering(o, Reconcile(entries))
    requires l in entries && entries[l].phase == Staged && l in ConfigRefs(s, o)
    requires forall x, g :: HeldAt(Ctx(s, strict), g, x) ==> NoConflict(o, s.Ledger(o), x, g)
    ensures NoConflict(o, s.Ledger(o), l, entries[l].expectedGeneration + 1)
  {
    hide *;
    BootFacts(s, strict, o);
    ReconcileFacts(Ctx(s, strict), View(s.Ledger(o)), s.vault, o, entries, l);
    LeftOverIsDoomed(s, strict, o, l);
  }

  /** The duplicate-owner refusals of both ledgers are unreachable: neither a change that
      adopts or marks nor start-up recovery can meet one. */
  lemma NoDuplicateOwner(s: System, o: Owner)
    requires Reachable(s, false)
    ensures ChangeMeetsNoConflict(o, s.Ledger(o), s.Mutation(o))
    ensures s.boot.Recovering? && s.boot.owner == o ==> StartUpMeetsNoConflict(s, o, s.boot.stage)
  {
    hide *;
    ReachableIsOk(s, false);
    PartFacts(s, false, o);
    HeldMeansNoConflict(s, false, o);
    ChangeConflicts(Ctx(s, false), o, s.Ledger(o), s.vault, s.Mutation(o));
    if s.boot.Recovering? && s.boot.owner == o {
      assert s.boot == Recovering(o, s.boot.stage);
      StartUpConflicts(s, false, o, s.boot.stage);
    }
  }
}
