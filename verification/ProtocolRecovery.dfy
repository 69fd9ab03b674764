/** Background maintenance, crashes and start-up recovery keep the invariant. */
module ProtocolRecovery {
  import opened Wrappers
  import opened Configurations
  import opened CleanupLedgers
  import opened CredentialProtocol
  import opened ProtocolInvariant
  import opened ProtocolSteps
  import opened ProtocolCommit
  import opened ProtocolAdvance
  import opened ProtocolActions

  // -------------------------------------------------------------------------
  // Maintenance
  // -------------------------------------------------------------------------

  /** Only the tasks change, and each one is in order. */
  lemma TasksMove(s: System, strict: bool, tasks: map<nat, Task>)
    requires Inv(s, strict) && s.boot == Serving
    requires forall id :: id in tasks ==>
             TaskOk(Ctx(s, strict), s.vault, tasks[id]) && (strict ==> ReceiptOk(s.runtimes, tasks[id]))
    ensures Inv(s.(tasks := tasks), strict)
  {
    hide *;
    var t := s.(tasks := tasks);
    var o := ModelOwner;
    PartFacts(s, strict, o);
    TasksFrame(s, strict, tasks);
    VaultSame(s, t);
    if strict {
      TasksRuntimes(s, tasks);
    }
    ServingOk(Ctx(s, strict), View(t.Ledger(BootOwner(t.boot))), t.vault);
    ServingAtRest(t);
    Assemble(t, strict, Ctx(s, strict), o);
  }

  lemma TasksFrame(s: System, strict: bool, tasks: map<nat, Task>)
    ensures var t := s.(tasks := tasks);
            Ctx(t, strict) == Ctx(s, strict) && forall o :: t.Ledger(o) == s.Ledger(o) && t.Mutation(o) == s.Mutation(o)
  {}

  lemma TasksRuntimes(s: System, tasks: map<nat, Task>)
    requires RuntimesOk(s) && forall id :: id in tasks ==> ReceiptOk(s.runtimes, tasks[id])
    ensures RuntimesOk(s.(tasks := tasks))
  {}

  lemma ReceiptFacts(s: System)
    requires RuntimesOk(s)
    ensures forall id :: id in s.tasks ==> ReceiptOk(s.runtimes, s.tasks[id])
  {}

  lemma NoReceipt(rs: map<nat, Runtime>, t: Task)
    requires !t.AwaitDrain?
    ensures ReceiptOk(rs, t)
  {}

  lemma TaskMoves(s: System, strict: bool, id: nat, task: Task)
    requires Inv(s, strict) && s.boot == Serving
    requires TaskOk(Ctx(s, strict), s.vault, task) && !task.AwaitDrain?
    ensures Inv(s.(tasks := s.tasks[id := task]), strict)
  {
    hide *;
    PartFacts(s, strict, ModelOwner);
    if strict {
      ReceiptFacts(s);
    }
    NoReceipt(s.runtimes, task);
    TasksMove(s, strict, s.tasks[id := task]);
  }

  lemma TaskEnds(s: System, strict: bool, id: nat)
    requires Inv(s, strict) && s.boot == Serving
    ensures Inv(s.(tasks := s.tasks - {id}), strict)
  {
    hide *;
    PartFacts(s, strict, ModelOwner);
    if strict {
      ReceiptFacts(s);
    }
    TasksMove(s, strict, s.tasks - {id});
  }

  /** Once the receipt has resolved, nobody uses what the change replaced. */
  lemma DrainedIsDoomed(s: System, strict: bool, o: Owner, replaced: set<Locator>, serial: Option<nat>)
    requires TaskOk(Ctx(s, strict), s.vault, AwaitDrain(o, replaced, serial))
    requires strict ==> ReceiptOk(s.runtimes, AwaitDrain(o, replaced, serial))
    requires serial.Some? ==> serial.value !in s.runtimes
    ensures forall l :: l in replaced ==> OwnDoomed(Ctx(s, strict), o, l)
  {
    if strict {
      assert forall n :: n in s.runtimes ==> s.runtimes[n].refs * replaced == {};
      assert forall l :: l in replaced ==> l !in UsedRefs(s);
    }
  }

  lemma DrainedShape(s: System, id: nat, pick: Locator, f: Fault)
    requires id in s.tasks && s.tasks[id].AwaitDrain?
    ensures var w, t := s.tasks[id], DoMaintain(s, id, pick, f);
            if w.serial.Some? && w.serial.value in s.runtimes then t == s
            else t == s.(tasks := s.tasks[id := Retiring(w.owner, ActiveGenerations(s.Ledger(w.owner), w.replaced))])
  {}

  lemma GenerationsOfReplaced(es: seq<Entry>, replaced: set<Locator>)
    ensures forall l :: l in ActiveGenerations(es, replaced) ==> l in replaced
  {}

  lemma RetiringOk(k: Context, vault: set<Locator>, o: Owner, retire: map<Locator, int>)
    requires forall l :: l in retire ==> OwnDoomed(k, o, l)
    ensures TaskOk(k, vault, Retiring(o, retire))
  {}

  lemma RetiringFacts(k: Context, vault: set<Locator>, o: Owner, retire: map<Locator, int>)
    requires TaskOk(k, vault, Retiring(o, retire))
    ensures forall l :: l in retire ==> OwnDoomed(k, o, l)
  {}

  lemma LoadingOk(k: Context, vault: set<Locator>, o: Owner)
    ensures TaskOk(k, vault, Sweeping(o, LoadConfig)) && SweepOk(k, o, vault, LoadConfig)
  {}

  lemma SweepingOk(k: Context, vault: set<Locator>, o: Owner, w: Sweep)
    ensures TaskOk(k, vault, Sweeping(o, w)) <==> SweepOk(k, o, vault, w)
  {}

  lemma RetiringShape(s: System, id: nat, pick: Locator, f: Fault)
    requires id in s.tasks && s.tasks[id].Retiring?
    ensures var w, t := s.tasks[id], DoMaintain(s, id, pick, f);
            if w.retire == map[] then t == s.(tasks := s.tasks[id := Sweeping(w.owner, LoadConfig)])
            else if pick !in w.retire then t == s
            else var r := Retire(w.owner, s.Ledger(w.owner), pick, w.retire[pick]);
                 var q := Apply(s, w.owner, r, f);
                 t == if Succeeds(r, f) then q.(tasks := q.tasks[id := Retiring(w.owner, w.retire - {pick})])
                 else q.(tasks := q.tasks - {id})
  {}

  lemma SweepingShape(s: System, id: nat, pick: Locator, f: Fault)
    requires id in s.tasks && s.tasks[id].Sweeping?
    ensures var w, t := s.tasks[id], DoMaintain(s, id, pick, f);
            var q := SweepStep(s, w.owner, w.sweep, pick, f);
            t == q.0.(tasks := if q.1.Some? then s.tasks[id := Sweeping(w.owner, q.1.value)] else s.tasks - {id})
  {
    hide SweepStep;
  }

  lemma SweepStays(s: System, o: Owner, w: Sweep, pick: Locator, f: Fault)
    ensures var t := SweepStep(s, o, w, pick, f).0; t.tasks == s.tasks && t.boot == s.boot
  {
    hide CleanupStep;
    if w.Cleaning? {
      CleanupStays(s, o, w.cleanup, f);
    }
  }

  lemma AwaitKeeps(s: System, strict: bool, id: nat, pick: Locator, f: Fault)
    requires Inv(s, strict) && s.boot == Serving && id in s.tasks && s.tasks[id].AwaitDrain?
    ensures Inv(DoMaintain(s, id, pick, f), strict)
  {
    hide *;
    var w := s.tasks[id];
    PartFacts(s, strict, ModelOwner);
    DrainedShape(s, id, pick, f);
    if !(w.serial.Some? && w.serial.value in s.runtimes) {
      if strict {
        ReceiptFacts(s);
      }
      assert w == AwaitDrain(w.owner, w.replaced, w.serial);
      DrainedIsDoomed(s, strict, w.owner, w.replaced, w.serial);
      var retire := ActiveGenerations(s.Ledger(w.owner), w.replaced);
      GenerationsOfReplaced(s.Ledger(w.owner), w.replaced);
      RetiringOk(Ctx(s, strict), s.vault, w.owner, retire);
      TaskMoves(s, strict, id, Retiring(w.owner, retire));
    }
  }

  lemma RetiringKeeps(s: System, strict: bool, id: nat, pick: Locator, f: Fault)
    requires Inv(s, strict) && s.boot == Serving && id in s.tasks && s.tasks[id].Retiring?
    ensures Inv(DoMaintain(s, id, pick, f), strict)
  {
    hide *;
    var w := s.tasks[id];
    var k := Ctx(s, strict);
    PartFacts(s, strict, ModelOwner);
    RetiringShape(s, id, pick, f);
    assert w == Retiring(w.owner, w.retire);
    RetiringFacts(k, s.vault, w.owner, w.retire);
    if w.retire == map[] {
      LoadingOk(k, s.vault, w.owner);
      TaskMoves(s, strict, id, Sweeping(w.owner, LoadConfig));
    } else if pick in w.retire {
      var r := Retire(w.owner, s.Ledger(w.owner), pick, w.retire[pick]);
      var q := Apply(s, w.owner, r, f);
      ServingSettled(s, w.owner, pick);
      RetireKeeps(s, strict, w.owner, pick, w.retire[pick], f);
      ApplyFrame(s, strict, w.owner, r, f);
      RetiringOk(k, s.vault, w.owner, w.retire - {pick});
      TaskMoves(q, strict, id, Retiring(w.owner, w.retire - {pick}));
      TaskEnds(q, strict, id);
    }
  }

  lemma SweepingKeeps(s: System, strict: bool, id: nat, pick: Locator, f: Fault)
    requires Inv(s, strict) && s.boot == Serving && id in s.tasks && s.tasks[id].Sweeping?
    ensures Inv(DoMaintain(s, id, pick, f), strict)
  {
    hide *;
    var w := s.tasks[id];
    var k := Ctx(s, strict);
    var q := SweepStep(s, w.owner, w.sweep, pick, f);
    PartFacts(s, strict, ModelOwner);
    SweepingShape(s, id, pick, f);
    SweepStays(s, w.owner, w.sweep, pick, f);
    assert w == Sweeping(w.owner, w.sweep);
    SweepingOk(k, s.vault, w.owner, w.sweep);
    ServingNotReconciling(s);
    SweepKeeps(s, strict, w.owner, w.sweep, pick, f);
    SweepFrame(s, strict, w.owner, w.sweep, pick, f);
    if q.1.Some? {
      SweepingOk(k, q.0.vault, w.owner, q.1.value);
      TaskMoves(q.0, strict, id, Sweeping(w.owner, q.1.value));
    } else {
      TaskEnds(q.0, strict, id);
    }
  }

  lemma MaintainKeeps(s: System, strict: bool, id: nat, pick: Locator, f: Fault)
    requires Inv(s, strict) && s.boot == Serving
    ensures Inv(DoMaintain(s, id, pick, f), strict)
  {
    if id in s.tasks {
      hide *;
      match s.tasks[id]
      case AwaitDrain(_, _, _) => AwaitKeeps(s, strict, id, pick, f);
      case Retiring(_, _) => RetiringKeeps(s, strict, id, pick, f);
      case Sweeping(_, _) => SweepingKeeps(s, strict, id, pick, f);
    }
  }

  lemma CloseKeeps(s: System, strict: bool, o: Owner)
    requires Inv(s, strict)
    ensures Inv(s.(closed := s.closed + {o}), strict)
  {
    hide *;
    var t := s.(closed := s.closed + {o});
    CloseFrame(s, strict, o);
    PartFacts(s, strict, o);
    VaultSame(s, t);
    Assemble(t, strict, Ctx(s, strict), o);
  }

  lemma CloseFrame(s: System, strict: bool, o: Owner)
    requires Inv(s, strict)
    ensures var t := s.(closed := s.closed + {o});
            && Ctx(t, strict) == Ctx(s, strict)
            && (forall x :: t.Ledger(x) == s.Ledger(x) && t.Mutation(x) == s.Mutation(x))
            && AtRestWhileRecovering(t) && (strict ==> RuntimesOk(t))
  {}

  // -------------------------------------------------------------------------
  // Crash
  // -------------------------------------------------------------------------

  lemma CrashFrame(s: System, strict: bool)
    ensures var t := DoCrash(s);
            && t.modelLedger == s.modelLedger && t.voiceLedger == s.voiceLedger
            && (forall o :: t.Ledger(o) == s.Ledger(o) && t.Mutation(o) == Idle)
            && t.config == s.config && t.vault == s.vault && t.tasks == map[] && t.boot == StartRecovery(s, ModelOwner)
            && Ctx(t, strict) == Ctx(s, strict).(pre := {}, used := {})
            && AtRestWhileRecovering(t)
  {}

  lemma CrashContext(k: Context, k': Context)
    requires k' == k.(pre := {}, used := {})
    ensures Extends(k, k') && (ConfigOk(k) ==> ConfigOk(k')) && forall l :: Named(k', l) <==> Named(k, l)
  {}

  lemma CrashRuntimes(s: System)
    ensures RuntimesOk(DoCrash(s))
  {}

  lemma StartOk(k: Context, s: System, o: Owner, v: map<Locator, Entry>, vault: set<Locator>)
    requires ConfigOk(k) && k.config == s.config
    ensures BootOk(k, v, vault, StartRecovery(s, o))
  {
    if s.config.Some? {
      RefsFollowTracks(s.config.value);
    }
  }

  lemma CrashKeeps(s: System, strict: bool)
    requires Inv(s, strict)
    ensures Inv(DoCrash(s), strict)
  {
    hide *;
    var t := DoCrash(s);
    var k, k' := Ctx(s, strict), Ctx(t, strict);
    var o := ModelOwner;
    PartFacts(s, strict, o);
    CrashFrame(s, strict);
    CrashContext(k, k');
    LedgerExtends(k, k', o, s.Ledger(o));
    LedgerExtends(k, k', Other(o), s.Ledger(Other(o)));
    IdleOk(k', o, View(t.Ledger(o)), t.vault);
    IdleOk(k', Other(o), View(t.Ledger(Other(o))), t.vault);
    StartOk(k', s, o, View(t.Ledger(BootOwner(t.boot))), t.vault);
    VaultSame(s, t);
    CrashRuntimes(s);
    Assemble(t, strict, k', o);
  }

  // -------------------------------------------------------------------------
  // Start-up recovery
  // -------------------------------------------------------------------------

  lemma BootFrame(s: System, strict: bool, b: Boot)
    requires AtRestWhileRecovering(s) && s.boot.Recovering?
    ensures var t := s.(boot := b);
            && Ctx(t, strict) == Ctx(s, strict)
            && (forall o :: t.Ledger(o) == s.Ledger(o) && t.Mutation(o) == s.Mutation(o))
            && AtRestWhileRecovering(t) && (RuntimesOk(s) ==> RuntimesOk(t))
  {}

  lemma BootMoves(s: System, strict: bool, b: Boot)
    requires Inv(s, strict) && s.boot.Recovering?
    requires BootOk(Ctx(s, strict), View(s.Ledger(BootOwner(b))), s.vault, b)
    ensures Inv(s.(boot := b), strict)
  {
    hide *;
    var t := s.(boot := b);
    var o := ModelOwner;
    RestFacts(s, strict);
    PartFacts(s, strict, o);
    BootFrame(s, strict, b);
    VaultSame(s, t);
    Assemble(t, strict, Ctx(s, strict), o);
  }

  lemma RestFacts(s: System, strict: bool)
    requires Inv(s, strict)
    ensures AtRestWhileRecovering(s)
    ensures s.boot.Recovering? ==>
            (forall o :: s.Mutation(o) == Idle) && Ctx(s, strict).pre == {} && Ctx(s, strict).used == {}
  {}

  lemma NextKeeps(s: System, strict: bool, o: Owner)
    requires Inv(s, strict) && s.boot.Recovering?
    ensures Inv(s.(boot := NextRecovery(s, o)), strict)
  {
    hide *;
    PartFacts(s, strict, o);
    NextShape(s, o);
    var b := NextRecovery(s, o);
    StartOk(Ctx(s, strict), s, VoiceOwner, View(s.Ledger(BootOwner(b))), s.vault);
    ServingOk(Ctx(s, strict), View(s.Ledger(BootOwner(b))), s.vault);
    BootMoves(s, strict, b);
  }

  lemma NextShape(s: System, o: Owner)
    ensures NextRecovery(s, o) == Serving || NextRecovery(s, o) == StartRecovery(s, VoiceOwner)
  {}

  lemma BootFacts(s: System, strict: bool, o: Owner)
    requires Inv(s, strict) && s.boot.Recovering? && s.boot.owner == o
    ensures BootOk(Ctx(s, strict), View(s.Ledger(o)), s.vault, s.boot) && BootOwner(s.boot) == o
    ensures forall b: Boot :: b.Recovering? && b.owner == o ==> BootOwner(b) == o
  {}

  lemma NotReconciling(b: Boot, o: Owner, l: Locator)
    requires b.Recovering? && !b.stage.Reconcile?
    ensures Settled(b, o, l)
  {}

  // Adoption

  lemma AdoptOwnersShape(s: System, o: Owner, adopt: set<Locator>, pick: Locator, f: Fault)
    ensures var t := DoRecover(s, o, AdoptOwners(adopt), pick, f);
            if adopt == {} then t == s.(boot := Recovering(o, Reconcile(View(s.Ledger(o)))))
            else if pick !in adopt || s.config.None? then t == s
            else t == Apply(s, o, AdoptCommitted(o, s.Ledger(o), pick, s.config.value.generation), f)
                      .(boot := Recovering(o, AdoptOwners(adopt - {pick})))
  {}

  lemma AdoptOwnersFacts(k: Context, v: map<Locator, Entry>, vault: set<Locator>, o: Owner, adopt: set<Locator>)
    requires BootOk(k, v, vault, Recovering(o, AdoptOwners(adopt))) && ConfigOk(k)
    ensures forall l :: l in adopt ==> Named(k, l) && l.Owner() == o && HeldAt(k, k.config.value.generation, l)
    ensures forall l, w :: BootOk(k, w, vault, Recovering(o, AdoptOwners(adopt - {l})))
  {}

  lemma SnapshotOk(k: Context, v: map<Locator, Entry>, vault: set<Locator>, o: Owner)
    ensures BootOk(k, v, vault, Recovering(o, Reconcile(v)))
  {}

  lemma AdoptOwnersKeeps(s: System, strict: bool, o: Owner, adopt: set<Locator>, pick: Locator, f: Fault)
    requires Inv(s, strict) && s.boot == Recovering(o, AdoptOwners(adopt))
    ensures Inv(DoRecover(s, o, AdoptOwners(adopt), pick, f), strict)
  {
    hide *;
    var k := Ctx(s, strict);
    PartFacts(s, strict, o);
    RestFacts(s, strict);
    BootFacts(s, strict, o);
    AdoptOwnersShape(s, o, adopt, pick, f);
    AdoptOwnersFacts(k, View(s.Ledger(o)), s.vault, o, adopt);
    NotReconciling(s.boot, o, pick);
    if adopt == {} {
      SnapshotOk(k, View(s.Ledger(o)), s.vault, o);
      BootMoves(s, strict, Recovering(o, Reconcile(View(s.Ledger(o)))));
    } else if pick in adopt && s.config.Some? {
      var r := AdoptCommitted(o, s.Ledger(o), pick, s.config.value.generation);
      var t := Apply(s, o, r, f);
      AdoptKeeps(s, strict, o, pick, s.config.value.generation, f);
      ApplyFrame(s, strict, o, r, f);
      BootMoves(t, strict, Recovering(o, AdoptOwners(adopt - {pick})));
    }
  }

  // Reconciliation

  lemma ReconcileShape(s: System, o: Owner, entries: map<Locator, Entry>, pick: Locator, f: Fault)
    ensures var t := DoRecover(s, o, Reconcile(entries), pick, f);
            if entries == map[] then t == s.(boot := Recovering(o, RecoverySweep(LoadConfig)))
            else if pick !in entries then t == s
            else t == ReconcileEntry(s.(boot := Recovering(o, Reconcile(entries - {pick}))), o, entries[pick], f)
  {
    hide ReconcileEntry;
  }

  lemma ReconcileFacts(k: Context, v: map<Locator, Entry>, vault: set<Locator>, o: Owner, entries: map<Locator, Entry>,
                       pick: Locator)
    requires BootOk(k, v, vault, Recovering(o, Reconcile(entries))) && pick in entries
    ensures pick in v && v[pick] == entries[pick]
    ensures BootOk(k, v, vault, Recovering(o, Reconcile(entries - {pick})))
    ensures Settled(Recovering(o, Reconcile(entries - {pick})), o, pick)
  {}

  /** What a ledgered locator that the configuration does not name is at start-up. */
  lemma LeftOverIsDoomed(s: System, strict: bool, o: Owner, l: Locator)
    requires Inv(s, strict) && s.boot.Recovering? && l in View(s.Ledger(o))
    ensures var e := View(s.Ledger(o))[l];
            && e.ref == l && l.Owner() == o
            && (l !in ConfigRefs(s, o) ==> OwnDoomed(Ctx(s, strict), o, l))
            && (l in ConfigRefs(s, o) && e.phase == Staged ==> HeldAt(Ctx(s, strict), e.expectedGeneration + 1, l))
  {
    RestFacts(s, strict);
    LedgerFacts(s, strict, o);
    assert EntryOk(Ctx(s, strict), o, View(s.Ledger(o))[l]);
    if s.config.Some? {
      assert ConfigOk(Ctx(s, strict));
      RefsFollowTracks(s.config.value);
    }
  }

  lemma ReconcileEntryShape(s: System, o: Owner, e: Entry, f: Fault)
    ensures var t, es := ReconcileEntry(s, o, e, f), s.Ledger(o);
            if e.phase == Staged && e.ref in ConfigRefs(s, o) then
              t == Apply(s, o, MarkCommitted(o, es, e.ref, e.expectedGeneration + 1 - 1, e.expectedGeneration + 1), f)
            else if e.phase == Staged then t == Apply(s, o, AbandonStaged(o, es, e.ref), f)
            else if e.phase == Active && e.ref !in ConfigRefs(s, o) && e.committedGeneration.Some? then
              t == Apply(s, o, Retire(o, es, e.ref, e.committedGeneration.value), f)
            else t == s
  {}

  lemma ReconcileEntryKeeps(s: System, strict: bool, o: Owner, e: Entry, f: Fault)
    requires Inv(s, strict) && s.boot.Recovering? && e.ref in View(s.Ledger(o)) && View(s.Ledger(o))[e.ref] == e
    requires Settled(s.boot, o, e.ref)
    ensures Inv(ReconcileEntry(s, o, e, f), strict)
  {
    hide *;
    RestFacts(s, strict);
    LeftOverIsDoomed(s, strict, o, e.ref);
    ReconcileEntryShape(s, o, e, f);
    if e.phase == Staged && e.ref in ConfigRefs(s, o) {
      MarkKeeps(s, strict, o, e.ref, e.expectedGeneration + 1, f);
    } else if e.phase == Staged {
      AbandonKeeps(s, strict, o, e.ref, f);
    } else if e.phase == Active && e.ref !in ConfigRefs(s, o) && e.committedGeneration.Some? {
      RetireKeeps(s, strict, o, e.ref, e.committedGeneration.value, f);
    }
  }

  lemma EntryKey(s: System, strict: bool, o: Owner, l: Locator)
    requires Inv(s, strict) && l in View(s.Ledger(o))
    ensures View(s.Ledger(o))[l].ref == l
  {
    LedgerFacts(s, strict, o);
  }

  lemma BootLedger(s: System, b: Boot)
    ensures forall o :: s.(boot := b).Ledger(o) == s.Ledger(o)
  {}

  lemma ReconcileKeeps(s: System, strict: bool, o: Owner, entries: map<Locator, Entry>, pick: Locator, f: Fault)
    requires Inv(s, strict) && s.boot == Recovering(o, Reconcile(entries))
    ensures Inv(DoRecover(s, o, Reconcile(entries), pick, f), strict)
  {
    hide *;
    var k := Ctx(s, strict);
    BootFacts(s, strict, o);
    ReconcileShape(s, o, entries, pick, f);
    if entries == map[] {
      RecoverySweepOk(k, View(s.Ledger(o)), s.vault, o, LoadConfig);
      LoadingOk(k, s.vault, o);
      BootMoves(s, strict, Recovering(o, RecoverySweep(LoadConfig)));
    } else if pick in entries {
      ReconcileFacts(k, View(s.Ledger(o)), s.vault, o, entries, pick);
      EntryKey(s, strict, o, pick);
      var b := Recovering(o, Reconcile(entries - {pick}));
      BootMoves(s, strict, b);
      BootLedger(s, b);
      ReconcileEntryKeeps(s.(boot := b), strict, o, entries[pick], f);
    }
  }

  // The closing cleanup pass

  lemma RecoverySweepOk(k: Context, v: map<Locator, Entry>, vault: set<Locator>, o: Owner, w: Sweep)
    ensures BootOk(k, v, vault, Recovering(o, RecoverySweep(w))) <==> SweepOk(k, o, vault, w)
  {}

  lemma RecoverySweepShape(s: System, o: Owner, w: Sweep, pick: Locator, f: Fault)
    ensures var q := SweepStep(s, o, w, pick, f);
            DoRecover(s, o, RecoverySweep(w), pick, f) ==
              q.0.(boot := if q.1.Some? then Recovering(o, RecoverySweep(q.1.value)) else NextRecovery(s, o))
  {
    hide SweepStep, NextRecovery;
  }

  lemma NextIsStable(s: System, t: System, o: Owner)
    requires t.config == s.config
    ensures NextRecovery(t, o) == NextRecovery(s, o)
  {}

  lemma RecoverySweepKeeps(s: System, strict: bool, o: Owner, w: Sweep, pick: Locator, f: Fault)
    requires Inv(s, strict) && s.boot == Recovering(o, RecoverySweep(w))
    ensures Inv(DoRecover(s, o, RecoverySweep(w), pick, f), strict)
  {
    hide *;
    var k := Ctx(s, strict);
    var q := SweepStep(s, o, w, pick, f);
    BootFacts(s, strict, o);
    RecoverySweepShape(s, o, w, pick, f);
    SweepStays(s, o, w, pick, f);
    RecoverySweepOk(k, View(s.Ledger(o)), s.vault, o, w);
    SweepKeeps(s, strict, o, w, pick, f);
    SweepFrame(s, strict, o, w, pick, f);
    if q.1.Some? {
      RecoverySweepOk(k, View(q.0.Ledger(o)), q.0.vault, o, q.1.value);
      BootMoves(q.0, strict, Recovering(o, RecoverySweep(q.1.value)));
    } else {
      NextIsStable(s, q.0, o);
      NextKeeps(q.0, strict, o);
    }
  }

  lemma RecoverKeeps(s: System, strict: bool, pick: Locator, f: Fault)
    requires Inv(s, strict) && s.boot.Recovering?
    ensures Inv(DoRecover(s, s.boot.owner, s.boot.stage, pick, f), strict)
  {
    hide *;
    match s.boot.stage
    case AdoptOwners(adopt) => AdoptOwnersKeeps(s, strict, s.boot.owner, adopt, pick, f);
    case Reconcile(entries) => ReconcileKeeps(s, strict, s.boot.owner, entries, pick, f);
    case RecoverySweep(w) => RecoverySweepKeeps(s, strict, s.boot.owner, w, pick, f);
  }
}
