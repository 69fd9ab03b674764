/** The start-up pass itself, on the stores it writes in place. */
module RecoveryPass {
  import opened Wrappers
  import opened Configurations
  import opened CleanupLedgers
  import opened CredentialProtocol
  import opened CredentialStores
  import opened ProtocolInvariant
  import opened ProtocolSteps
  import opened ProtocolRecovery
  import opened ProtocolRuns
  import opened ProtocolHistory
  import opened ProtocolGuarantees
  import opened Startup

  // -------------------------------------------------------------------------
  // What each phase achieves
  // -------------------------------------------------------------------------

  /** Adoption loses no entry, adds only configured ones and counts no attempt. */
  ghost predicate Grown(es: seq<Entry>, es': seq<Entry>, active: set<Locator>) {
    && (forall l :: l in View(es) ==> l in View(es'))
    && (forall l :: l in View(es') ==> l in active || (l in View(es) && View(es')[l].attempts == View(es)[l].attempts))
  }

  /** The same locators with the same number of attempts. */
  ghost predicate SameKeys(es: seq<Entry>, es': seq<Entry>) {
    && (forall l :: l in View(es) <==> l in View(es'))
    && (forall l :: l in View(es) ==> View(es')[l].attempts == View(es)[l].attempts)
  }

  /** An entry that reconciliation is done with. */
  ghost predicate Decided(es: seq<Entry>, l: Locator, active: set<Locator>) {
    l in View(es) && View(es)[l].phase == if l in active then Active else PendingCleanup
  }

  lemma AdoptGrows(o: Owner, es0: seq<Entry>, es: seq<Entry>, l: Locator, g: int, f: Fault, active: set<Locator>)
    requires Unique(es) && Grown(es0, es, active) && l in active
    ensures Grown(es0, Written(es, AdoptCommitted(o, es, l, g), f), active)
  {
    var r := AdoptCommitted(o, es, l, g);
    AdoptCommittedEffect(o, es, l, g);
    if r.Ok? && f != Refused {
      AgreesElsewhere(es, r.entries, l);
    }
    hide AdoptCommitted, View, Find, Touches, AgreeExcept, Unique;
  }

  lemma AgreesElsewhere(es: seq<Entry>, es': seq<Entry>, l: Locator)
    requires Touches(es, es', l)
    ensures forall x :: x != l ==>
            (x in View(es') <==> x in View(es)) && (x in View(es) ==> View(es')[x] == View(es)[x])
  {
    forall x | x != l
      ensures (x in View(es') <==> x in View(es)) && (x in View(es) ==> View(es')[x] == View(es)[x])
    {
      assert SameAt(View(es), View(es'), x);
    }
  }

  /** One entry rewritten in place: the locators and the attempts stay. */
  ghost predicate Rewritten(es: seq<Entry>, es': seq<Entry>, l: Locator) {
    && SameKeys(es, es')
    && (forall x :: x != l && x in View(es) ==> x in View(es') && View(es')[x] == View(es)[x])
  }

  lemma TouchRewrites(es: seq<Entry>, es': seq<Entry>, l: Locator)
    requires es' == es || Touches(es, es', l)
    requires l in View(es) && l in View(es') && View(es')[l].attempts == View(es)[l].attempts
    ensures Rewritten(es, es', l)
  {
    hide View, Touches;
    if es' != es {
      AgreesElsewhere(es, es', l);
    }
  }

  /** Without a fault, reconciliation settles the entry it looks at and no other. */
  lemma ReconcileDecides(s: System, o: Owner, e: Entry, es: seq<Entry>, vault: set<Locator>,
                         config: Option<Configuration>)
    requires Mirrors(s, o, es, vault, config) && e.ref in View(es) && View(es)[e.ref] == e
    ensures var es' := Reconciled(o, es, e, ActiveRefs(config, o), Done);
            Decided(es', e.ref, ActiveRefs(config, o)) && Rewritten(es, es', e.ref)
  {
    hide *;
    MirrorsIs(s, o, es, vault, config);
    EntryAtRest(s, o, e, es, config);
    PromotionWorks(s, o, e, es, config);
    ReconciledAs(o, es, e, ActiveRefs(config, o));
    DecidedIn(Reconciled(o, es, e, ActiveRefs(config, o), Done), e.ref, ActiveRefs(config, o));
    TouchRewrites(es, Reconciled(o, es, e, ActiveRefs(config, o), Done), e.ref);
  }

  lemma DecidedIn(es: seq<Entry>, l: Locator, active: set<Locator>)
    requires Decided(es, l, active)
    ensures l in View(es)
  {}

  /** What the invariant says about an entry that start-up looks at. */
  lemma EntryAtRest(s: System, o: Owner, e: Entry, es: seq<Entry>, config: Option<Configuration>)
    requires Inv(s, false) && s.boot.Recovering? && s.Ledger(o) == es && s.config == config
    requires e.ref in View(es) && View(es)[e.ref] == e
    ensures e.phase == PendingCleanup ==> e.ref !in ActiveRefs(config, o)
    ensures e in es
  {
    LedgerFacts(s, false, o);
    PendingIsDoomed(s, false, o);
    var i := Find(es, e.ref);
    assert es[i] == e;
    if e.phase == PendingCleanup {
      assert OwnDoomed(Ctx(s, false), o, e.ref);
    }
    hide Inv, View;
  }

  lemma PromotionWorks(s: System, o: Owner, e: Entry, es: seq<Entry>, config: Option<Configuration>)
    requires Inv(s, false) && s.boot.Recovering? && s.Ledger(o) == es && s.config == config
    requires e.ref in View(es) && View(es)[e.ref] == e
    ensures e.phase == Staged && e.ref in ActiveRefs(config, o) ==>
              MarkCommitted(o, es, e.ref, e.expectedGeneration, e.expectedGeneration + 1) != Err(OwnerConflict)
  {
    hide *;
    LeftOverIsDoomed(s, false, o, e.ref);
    HeldMeansNoConflict(s, false, o);
    SameActive(s, o);
    if HeldAt(Ctx(s, false), e.expectedGeneration + 1, e.ref) {
      NoConflictMarks(o, es, e.ref, e.expectedGeneration);
    }
  }

  lemma SameActive(s: System, o: Owner)
    ensures ConfigRefs(s, o) == ActiveRefs(s.config, o)
  {}

  lemma NoConflictMarks(o: Owner, es: seq<Entry>, l: Locator, expected: int)
    requires NoConflict(o, es, l, expected + 1)
    ensures MarkCommitted(o, es, l, expected, expected + 1) != Err(OwnerConflict)
  {
    assert expected + 1 - 1 == expected;
    hide MarkCommitted, AdoptCommitted;
  }

  lemma Promotes(o: Owner, es: seq<Entry>, e: Entry, active: set<Locator>)
    requires Unique(es) && e.ref in View(es) && View(es)[e.ref] == e && ValidEntry(o, e) && e.phase == Staged
             && e.ref in active
    requires MarkCommitted(o, es, e.ref, e.expectedGeneration, e.expectedGeneration + 1) != Err(OwnerConflict)
    ensures var r := MarkCommitted(o, es, e.ref, e.expectedGeneration, e.expectedGeneration + 1);
            r.Ok? && Touches(es, r.entries, e.ref) && Decided(r.entries, e.ref, active)
            && View(r.entries)[e.ref].attempts == e.attempts
  {
    MarkCommittedEffect(o, es, e.ref, e.expectedGeneration, e.expectedGeneration + 1);
    assert es[Find(es, e.ref)] == e;
    hide Touches, View, Unique;
  }

  lemma Abandons(o: Owner, es: seq<Entry>, e: Entry, active: set<Locator>)
    requires Unique(es) && e.ref in View(es) && View(es)[e.ref] == e && ValidEntry(o, e) && e.phase == Staged
             && e.ref !in active
    ensures var r := AbandonStaged(o, es, e.ref);
            r.Ok? && Touches(es, r.entries, e.ref) && Decided(r.entries, e.ref, active)
            && View(r.entries)[e.ref].attempts == e.attempts
  {
    AbandonStagedEffect(o, es, e.ref);
    assert es[Find(es, e.ref)] == e;
    hide Touches, View, Unique;
  }

  lemma RetiresEntry(o: Owner, es: seq<Entry>, e: Entry, active: set<Locator>)
    requires Unique(es) && e.ref in View(es) && View(es)[e.ref] == e && ValidEntry(o, e) && e.phase == Active
             && e.ref !in active
    ensures e.committedGeneration.Some?
    ensures var r := Retire(o, es, e.ref, e.committedGeneration.value);
            r.Ok? && Touches(es, r.entries, e.ref) && Decided(r.entries, e.ref, active)
            && View(r.entries)[e.ref].attempts == e.attempts
  {
    RetireEffect(o, es, e.ref, e.committedGeneration.value);
    assert es[Find(es, e.ref)] == e;
    hide Touches, View, Unique;
  }

  lemma ReconciledAs(o: Owner, es: seq<Entry>, e: Entry, active: set<Locator>)
    requires Unique(es) && e.ref in View(es) && View(es)[e.ref] == e && e in es
             && (forall x :: x in es ==> ValidEntry(o, x))
    requires e.phase == PendingCleanup ==> e.ref !in active
    requires e.phase == Staged && e.ref in active ==>
               MarkCommitted(o, es, e.ref, e.expectedGeneration, e.expectedGeneration + 1) != Err(OwnerConflict)
    ensures var es' := Reconciled(o, es, e, active, Done);
            && (es' == es || Touches(es, es', e.ref))
            && Decided(es', e.ref, active) && View(es')[e.ref].attempts == e.attempts
  {
    hide Touches, View, Unique, ValidEntry, MarkCommitted, AbandonStaged, Retire, Find;
    if e.phase == Staged && e.ref in active {
      Promotes(o, es, e, active);
    } else if e.phase == Staged {
      Abandons(o, es, e, active);
    } else if e.phase == Active && e.ref !in active {
      RetiresEntry(o, es, e, active);
    }
  }

  // -------------------------------------------------------------------------
  // The phases
  // -------------------------------------------------------------------------

  lemma ExecSnoc(s: System, trace: seq<Action>, a: Action)
    ensures Exec(s, trace + [a]) == Step(Exec(s, trace), a)
  {
    ExecSplit(s, trace, [a]);
    assert Exec(Exec(s, trace), [a]) == Exec(Step(Exec(s, trace), a), []);
    hide Step;
  }

  /** Only recovery actions. */
  predicate Recovers(trace: seq<Action>) {
    forall a :: a in trace ==> a.Recover? || a.SkipRecovery?
  }

  /** A run so far, and where it stands. */
  ghost predicate Follows(s: System, trace: seq<Action>, t: System, o: Owner, es: seq<Entry>, vault: set<Locator>,
                          config: Option<Configuration>) {
    t == Exec(s, trace) && Recovers(trace) && Mirrors(t, o, es, vault, config)
    && t.Ledger(Other(o)) == s.Ledger(Other(o))
  }

  lemma FollowsOn(s: System, trace: seq<Action>, t: System, a: Action, o: Owner, es: seq<Entry>, vault: set<Locator>,
                  config: Option<Configuration>,
                  es0: seq<Entry>, vault0: set<Locator>)
    requires Follows(s, trace, t, o, es0, vault0, config) && a.Recover?
    requires Mirrors(Step(t, a), o, es, vault, config)
    ensures Follows(s, trace + [a], Step(t, a), o, es, vault, config)
  {
    ExecSnoc(s, trace, a);
    MirrorsIs(t, o, es0, vault0, config);
    RecoveringStep(t, a.pick, a.fault);
    OtherLedgerStays(t, a.pick, a.fault);
    hide Step, Exec, Mirrors, DoRecover;
  }

  lemma FollowsIs(s: System, trace: seq<Action>, t: System, o: Owner, es: seq<Entry>, vault: set<Locator>,
                  config: Option<Configuration>)
    ensures Follows(s, trace, t, o, es, vault, config) <==>
              t == Exec(s, trace) && Recovers(trace) && Mirrors(t, o, es, vault, config)
              && t.Ledger(Other(o)) == s.Ledger(Other(o))
  {}

  lemma FollowsFacts(s: System, trace: seq<Action>, t: System, o: Owner, es: seq<Entry>, vault: set<Locator>,
                     config: Option<Configuration>)
    requires Follows(s, trace, t, o, es, vault, config)
    ensures Unique(es) && |es| <= MAX_ENTRIES && t.config == config && forall e :: e in es ==> ValidEntry(o, e)
    ensures var ls := ManagedOwners(config, o); forall i, j :: 0 <= i < j < |ls| ==> ls[i] != ls[j]
  {
    MirrorsIs(t, o, es, vault, config);
  }

  lemma AdoptTurn(s: System, trace: seq<Action>, t: System, o: Owner, owners: seq<Locator>, i: nat, f: Fault,
                  es0: seq<Entry>, es: seq<Entry>, vault: set<Locator>, config: Option<Configuration>)
    requires Follows(s, trace, t, o, es, vault, config) && owners == ManagedOwners(config, o) && i < |owners|
    requires t.boot == Recovering(o, AdoptOwners(Remaining(owners, i))) && Grown(es0, es, ActiveRefs(config, o))
    ensures config.Some?
    ensures var a := Recover(owners[i], f);
            var es' := Written(es, AdoptCommitted(o, es, owners[i], config.value.generation), f);
            && Follows(s, trace + [a], Step(t, a), o, es', vault, config) && Grown(es0, es', ActiveRefs(config, o))
            && Step(t, a).boot == Recovering(o, AdoptOwners(Remaining(owners, i + 1)))
  {
    FollowsIs(s, trace, t, o, es, vault, config);
    FollowsFacts(s, trace, t, o, es, vault, config);
    assert owners == ManagedOwners(config, o);
    hide *;
    ManagedAreActive(config, o, owners[i]);
    RemainingStep(owners, i);
    AdoptStep(t, o, Remaining(owners, i), owners[i], f, es, vault, config);
    AdoptGrows(o, es0, es, owners[i], config.value.generation, f, ActiveRefs(config, o));
    FollowsOn(s, trace, t, Recover(owners[i], f), o,
              Written(es, AdoptCommitted(o, es, owners[i], config.value.generation), f), vault, config, es, vault);
  }

  /** How many of the first `k` configured credentials the ledger does not know. */
  ghost function Unledgered(es: seq<Entry>, owners: seq<Locator>, k: nat): nat
    requires k <= |owners|
  {
    if k == 0 then 0 else Unledgered(es, owners, k - 1) + if owners[k - 1] in View(es) then 0 else 1
  }

  /** The adoption of the first `k` without a fault: each one the ledger did not know is added
      while there is room, and nothing else is. */
  ghost predicate Taken(es0: seq<Entry>, es: seq<Entry>, owners: seq<Locator>, k: nat)
    requires k <= |owners|
  {
    var all := |es0| + Unledgered(es0, owners, k);
    && |es| == (if all <= 16 then all else 16)
    && (forall l :: l in View(es) ==> l in View(es0) || l in owners[..k])
    && ((forall i :: 0 <= i < k ==> owners[i] in View(es)) <==> all <= 16)
  }

  lemma TakesNext(o: Owner, es0: seq<Entry>, es: seq<Entry>, owners: seq<Locator>, k: nat, g: int)
    requires k < |owners| && Taken(es0, es, owners, k) && |es0| <= MAX_ENTRIES && Unique(es) && g >= 1
    requires forall i, j :: 0 <= i < j < |owners| ==> owners[i] != owners[j]
    requires forall l :: l in View(es0) ==> l in View(es)
    requires ValidReference(o, owners[k]) && NoConflict(o, es, owners[k], g)
    ensures Taken(es0, Written(es, AdoptCommitted(o, es, owners[k], g), Done), owners, k + 1)
  {
    hide View, AdoptCommitted, NoConflict, Unique, Written, Unledgered;
    TakenIs(o, es, owners[k], g);
    OneMoreOwner(es0, owners, k);
    OwnerIsNew(es0, es, owners, k);
  }

  lemma OneMoreOwner(es0: seq<Entry>, owners: seq<Locator>, k: nat)
    requires k < |owners|
    ensures Unledgered(es0, owners, k + 1) == Unledgered(es0, owners, k) + if owners[k] in View(es0) then 0 else 1
    ensures forall x :: x in owners[..k + 1] <==> x in owners[..k] || x == owners[k]
  {
    hide View;
    assert owners[..k + 1] == owners[..k] + [owners[k]];
  }

  lemma OwnerIsNew(es0: seq<Entry>, es: seq<Entry>, owners: seq<Locator>, k: nat)
    requires k < |owners| && forall i, j :: 0 <= i < j < |owners| ==> owners[i] != owners[j]
    requires (forall l :: l in View(es0) ==> l in View(es)) && forall l :: l in View(es) ==>
             l in View(es0) || l in owners[..k]
    ensures owners[k] in View(es0) <==> owners[k] in View(es)
  {
    hide View;
  }

  /** An adoption that meets no duplicate owner leaves the ledger as it is, known or full, or
      adds its locator; all others stay as they were. */
  lemma TakenIs(o: Owner, es: seq<Entry>, l: Locator, g: int)
    requires Unique(es) && ValidReference(o, l) && g >= 1 && NoConflict(o, es, l, g)
    ensures var es' := Written(es, AdoptCommitted(o, es, l, g), Done);
            && |es'| == |es| + (if l !in View(es) && |es| < 16 then 1 else 0)
            && (l in View(es') <==> l in View(es) || |es| < 16)
            && forall x :: x != l ==> (x in View(es') <==> x in View(es))
  {
    var r := AdoptCommitted(o, es, l, g);
    AdoptCommittedEffect(o, es, l, g);
    if r.Ok? {
      AgreesElsewhere(es, r.entries, l);
    }
    hide View, Touches, AgreeExcept, Unique;
  }

  lemma NoneTaken(es: seq<Entry>, owners: seq<Locator>)
    requires |es| <= MAX_ENTRIES
    ensures Taken(es, es, owners, 0)
  {}

  /** The turn of a configured credential meets no duplicate owner. */
  lemma TurnIsOwned(t: System, o: Owner, owners: seq<Locator>, i: nat, es: seq<Entry>, vault: set<Locator>,
                    config: Option<Configuration>)
    requires Mirrors(t, o, es, vault, config) && owners == ManagedOwners(config, o) && i < |owners|
    requires t.boot == Recovering(o, AdoptOwners(Remaining(owners, i)))
    ensures config.Some? && config.value.generation >= 1 && ValidReference(o, owners[i])
    ensures NoConflict(o, es, owners[i], config.value.generation)
  {
    MirrorsIs(t, o, es, vault, config);
    assert owners[i] in Remaining(owners, i);
    ManagedAreValid(config, o, owners[i]);
    hide *;
    HeldMeansNoConflict(t, false, o);
    AdoptionConflicts(t, false, o, AdoptOwners(Remaining(owners, i)));
  }

  lemma ManagedAreValid(config: Option<Configuration>, o: Owner, l: Locator)
    requires l in ManagedOwners(config, o) && (config.Some? ==> ValidConfiguration(config.value))
    ensures config.Some? && config.value.generation >= 1 && ValidReference(o, l)
  {}

  /** Records the configured credentials; a refusal leaves it to a later pass. */
  method AdoptConfigured(config: Option<Configuration>, ledger: LedgerStore, faults: nat -> Fault,
                         ghost vault: set<Locator>,
                         ghost s: System, ghost before: seq<Action>, ghost t0: System)
    returns (k: nat, ghost t: System, ghost trace: seq<Action>)
    requires Follows(s, before, t0, ledger.owner, ledger.entries, vault, config)
             && t0.boot == StartRecovery(t0, ledger.owner)
    modifies ledger
    ensures Follows(s, trace, t, ledger.owner, ledger.entries, vault, config)
            && t.boot == Recovering(ledger.owner, AdoptOwners({}))
    ensures Grown(old(ledger.entries), ledger.entries, ActiveRefs(config, ledger.owner))
    ensures var owners := ManagedOwners(config, ledger.owner);
            (forall i :: faults(i) == Done) ==> Taken(old(ledger.entries), ledger.entries, owners, |owners|)
  {
    hide *;
    ghost var o, es0 := ledger.owner, ledger.entries;
    var owners := ManagedOwners(config, ledger.owner);
    FollowsIs(s, before, t0, o, es0, vault, config);
    MirrorsIs(t0, o, es0, vault, config);
    NoneTaken(es0, owners);
    FollowsFacts(s, before, t0, o, es0, vault, config);
    StartSet(t0, o, config, owners);
    GrownFromItself(es0, ActiveRefs(config, o));
    k, t, trace := 0, t0, before;
    while k < |owners|
      invariant 0 <= k <= |owners|
      invariant Follows(s, trace, t, o, ledger.entries, vault, config)
                && Grown(es0, ledger.entries, ActiveRefs(config, o))
      invariant t.boot == Recovering(o, AdoptOwners(Remaining(owners, k)))
      invariant (forall i :: faults(i) == Done) ==> Taken(es0, ledger.entries, owners, k)
    {
      FollowsIs(s, trace, t, o, ledger.entries, vault, config);
      FollowsFacts(s, trace, t, o, ledger.entries, vault, config);
      TurnIsOwned(t, o, owners, k, ledger.entries, vault, config);
      if forall i :: faults(i) == Done {
        GrownKeeps(es0, ledger.entries, ActiveRefs(config, o));
        TakesNext(o, es0, ledger.entries, owners, k, config.value.generation);
      }
      AdoptTurn(s, trace, t, o, owners, k, faults(k), es0, ledger.entries, vault, config);
      t, trace := Step(t, Recover(owners[k], faults(k))), trace + [Recover(owners[k], faults(k))];
      var ok := ledger.Adopt(owners[k], config.value.generation, faults(k));
      k := k + 1;
    }
    NoneRemain(owners);
  }

  lemma GrownKeeps(es: seq<Entry>, es': seq<Entry>, active: set<Locator>)
    requires Grown(es, es', active)
    ensures forall l :: l in View(es) ==> l in View(es')
  {}

  lemma GrownFromItself(es: seq<Entry>, active: set<Locator>)
    ensures Grown(es, es, active)
  {}

  lemma NothingYet(s: System)
    ensures Exec(s, []) == s && Recovers([])
  {}

  lemma NoneRemain(ls: seq<Locator>)
    ensures Remaining(ls, |ls|) == {}
  {}

  function Remaining(ls: seq<Locator>, i: nat): set<Locator>
    requires i <= |ls|
  {
    set j | i <= j < |ls| :: ls[j]
  }

  lemma RemainingStep(ls: seq<Locator>, i: nat)
    requires i < |ls| && forall a, b :: 0 <= a < b < |ls| ==> ls[a] != ls[b]
    ensures ls[i] in Remaining(ls, i) && Remaining(ls, i) - {ls[i]} == Remaining(ls, i + 1)
  {}

  lemma StartSet(s: System, o: Owner, config: Option<Configuration>, owners: seq<Locator>)
    requires s.config == config && owners == ManagedOwners(config, o)
    ensures StartRecovery(s, o) == Recovering(o, AdoptOwners(Remaining(owners, 0)))
  {
    assert Remaining(owners, 0) == if config.Some? then ManagedRefs(config.value, o) else {};
  }

  lemma ManagedAreActive(config: Option<Configuration>, o: Owner, l: Locator)
    requires l in ManagedOwners(config, o)
    ensures config.Some? && l in ActiveRefs(config, o)
  {}

  // Reconciliation

  /** The part of the snapshot from index `i` on. */
  ghost function Unread(es: seq<Entry>, i: nat): map<Locator, Entry>
    requires i <= |es|
  {
    View(es) - (set j | 0 <= j < i :: es[j].ref)
  }

  lemma UnreadStart(es: seq<Entry>)
    ensures Unread(es, 0) == View(es)
  {}

  lemma UnreadStep(es: seq<Entry>, i: nat)
    requires i < |es| && Unique(es)
    ensures es[i].ref in Unread(es, i) && Unread(es, i)[es[i].ref] == es[i]
            && Unread(es, i) - {es[i].ref} == Unread(es, i + 1)
  {
    FindIs(es, i);
    assert (set j | 0 <= j < i + 1 :: es[j].ref) == (set j | 0 <= j < i :: es[j].ref) + {es[i].ref};
  }

  lemma UnreadEnd(es: seq<Entry>)
    ensures Unread(es, |es|) == map[]
  {
    assert forall l :: l in View(es) ==> es[Find(es, l)].ref == l;
    assert Unread(es, |es|).Keys == {};
  }

  /** The first `i` entries of the snapshot are settled and no locator was lost or added. */
  ghost predicate DecidedUpTo(snapshot: seq<Entry>, i: nat, es: seq<Entry>, active: set<Locator>)
    requires i <= |snapshot|
  {
    SameKeys(snapshot, es) && forall j :: 0 <= j < i ==> Decided(es, snapshot[j].ref, active)
  }

  lemma DecidedFromItself(es: seq<Entry>, active: set<Locator>)
    ensures DecidedUpTo(es, 0, es, active)
  {}

  lemma DecidedOn(snapshot: seq<Entry>, i: nat, es: seq<Entry>, es': seq<Entry>, active: set<Locator>)
    requires i < |snapshot| && Unique(snapshot) && DecidedUpTo(snapshot, i, es, active)
    requires Rewritten(es, es', snapshot[i].ref) && Decided(es', snapshot[i].ref, active)
    ensures DecidedUpTo(snapshot, i + 1, es', active)
  {
    hide View, Find;
    forall j | 0 <= j < i + 1
      ensures Decided(es', snapshot[j].ref, active)
    {
      assert j < i ==> Decided(es, snapshot[j].ref, active);
    }
  }

  lemma ReconcileTurn(s: System, trace: seq<Action>, t: System, o: Owner, snapshot: seq<Entry>, i: nat, f: Fault,
                      es: seq<Entry>, vault: set<Locator>, config: Option<Configuration>)
    requires Follows(s, trace, t, o, es, vault, config) && Unique(snapshot) && i < |snapshot|
    requires t.boot == Recovering(o, Reconcile(Unread(snapshot, i)))
    ensures var e := snapshot[i];
            var a := Recover(e.ref, f);
            var es' := Reconciled(o, es, e, ActiveRefs(config, o), f);
            && (e.phase == Active ==> e.committedGeneration.Some?)
            && Follows(s, trace + [a], Step(t, a), o, es', vault, config)
            && Step(t, a).boot == Recovering(o, Reconcile(Unread(snapshot, i + 1)))
            && (f == Done && DecidedUpTo(snapshot, i, es, ActiveRefs(config, o)) ==>
                DecidedUpTo(snapshot, i + 1, es', ActiveRefs(config, o)))
  {
    hide *;
    var e, active := snapshot[i], ActiveRefs(config, o);
    FollowsIs(s, trace, t, o, es, vault, config);
    UnreadStep(snapshot, i);
    ReconcileStep(t, o, Unread(snapshot, i), e, f, es, vault, config);
    EntryShape(t, o, e, es, vault, config);
    FollowsOn(s, trace, t, Recover(e.ref, f), o, Reconciled(o, es, e, active, f), vault, config, es, vault);
    if f == Done && DecidedUpTo(snapshot, i, es, active) {
      ReconcileDecides(t, o, e, es, vault, config);
      DecidedOn(snapshot, i, es, Reconciled(o, es, e, active, f), active);
    }
  }

  /** Promotes, abandons or retires each entry of the snapshot against the configuration. */
  method ReconcileEntries(config: Option<Configuration>, ledger: LedgerStore, snapshot: seq<Entry>,
                          faults: nat -> Fault, n: nat,
                          ghost vault: set<Locator>, ghost s: System, ghost before: seq<Action>, ghost t0: System)
    returns (k: nat, ghost t: System, ghost trace: seq<Action>)
    requires Follows(s, before, t0, ledger.owner, ledger.entries, vault, config)
             && t0.boot == Recovering(ledger.owner, Reconcile(View(snapshot)))
    requires snapshot == ledger.entries
    modifies ledger
    ensures Follows(s, trace, t, ledger.owner, ledger.entries, vault, config)
            && t.boot == Recovering(ledger.owner, Reconcile(map[]))
    ensures (forall i :: faults(i) == Done) ==>
            DecidedUpTo(snapshot, |snapshot|, ledger.entries, ActiveRefs(config, ledger.owner))
  {
    hide *;
    ghost var o := ledger.owner;
    var active := ActiveRefs(config, ledger.owner);
    UnreadStart(snapshot);
    DecidedFromItself(snapshot, active);
    FollowsFacts(s, before, t0, o, snapshot, vault, config);
    k, t, trace := n, t0, before;
    var i := 0;
    while i < |snapshot|
      invariant 0 <= i <= |snapshot|
      invariant Follows(s, trace, t, o, ledger.entries, vault, config)
                && t.boot == Recovering(o, Reconcile(Unread(snapshot, i)))
      invariant (forall x :: faults(x) == Done) ==> DecidedUpTo(snapshot, i, ledger.entries, active)
    {
      var e := snapshot[i];
      ghost var f := faults(k);
      ReconcileTurn(s, trace, t, o, snapshot, i, f, ledger.entries, vault, config);
      ReconciledIs(o, ledger.entries, e, active, f);
      if e.phase == Staged {
        if e.ref in active {
          var ok := ledger.MarkEntryCommitted(e.ref, e.expectedGeneration, e.expectedGeneration + 1, faults(k));
        } else {
          var ok := ledger.AbandonEntry(e.ref, faults(k));
        }
        k := k + 1;
      } else if e.phase == Active && e.ref !in active {
        var ok := ledger.RetireEntry(e.ref, e.committedGeneration.value, faults(k));
        k := k + 1;
      }
      t, trace := Step(t, Recover(e.ref, f)), trace + [Recover(e.ref, f)];
      i := i + 1;
    }
    UnreadEnd(snapshot);
  }

  lemma EntryShape(s: System, o: Owner, e: Entry, es: seq<Entry>, vault: set<Locator>, config: Option<Configuration>)
    requires Mirrors(s, o, es, vault, config) && e.ref in View(es) && View(es)[e.ref] == e
    ensures e.phase == Active ==> e.committedGeneration.Some?
  {
    MirrorsIs(s, o, es, vault, config);
    assert es[Find(es, e.ref)] == e;
    hide Mirrors;
  }

  lemma ReconciledIs(o: Owner, es: seq<Entry>, e: Entry, active: set<Locator>, f: Fault)
    requires e.phase == Active ==> e.committedGeneration.Some?
    ensures Reconciled(o, es, e, active, f) ==
            if e.phase == Staged && e.ref in active
            then Written(es, MarkCommitted(o, es, e.ref, e.expectedGeneration, e.expectedGeneration + 1), f)
            else if e.phase == Staged then Written(es, AbandonStaged(o, es, e.ref), f)
            else if e.phase == Active && e.ref !in active
                 then Written(es, Retire(o, es, e.ref, e.committedGeneration.value), f)
            else es
  {
    hide MarkCommitted, AbandonStaged, Retire;
  }

  // The closing cleanup pass

  /** The entry of `l` is gone and every other entry is as it was. */
  ghost predicate Cleaned(es: seq<Entry>, es': seq<Entry>, l: Locator) {
    l !in View(es') && forall x :: x != l ==>
    (x in View(es') <==> x in View(es)) && (x in View(es) ==> View(es')[x] == View(es)[x])
  }

  predicate Deletable(es: seq<Entry>, l: Locator) {
    l in View(es) && View(es)[l].phase == PendingCleanup && View(es)[l].attempts < MAX_ATTEMPTS
  }

  lemma CountsAttempt(o: Owner, es: seq<Entry>, l: Locator)
    requires Unique(es) && Deletable(es, l) && ValidReference(o, l)
    ensures var r := MarkCleanupAttempt(o, es, l);
            r.Ok? && Touches(es, r.entries, l) && l in View(r.entries) && View(r.entries)[l].phase == PendingCleanup
  {
    AttemptEffect(o, es, l);
    hide Touches, Unique;
  }

  lemma Acknowledges(o: Owner, es: seq<Entry>, l: Locator)
    requires Unique(es) && l in View(es) && View(es)[l].phase == PendingCleanup && ValidReference(o, l)
    ensures var r := Acknowledge(o, es, l); r.Ok? && Touches(es, r.entries, l) && l !in View(r.entries)
  {
    AcknowledgeEffect(o, es, l);
    hide Touches, Unique;
  }

  lemma TouchedUnique(es: seq<Entry>, es': seq<Entry>, l: Locator)
    requires Touches(es, es', l)
    ensures Unique(es')
  {}

  /** Without a fault, a pending locator with attempts left is gone from ledger and vault. */
  lemma CleansOne(o: Owner, es: seq<Entry>, vault: set<Locator>, l: Locator, faults: nat -> Fault, n: nat)
    requires Unique(es) && Deletable(es, l) && ValidReference(o, l) && forall i: nat :: faults(i) == Done
    ensures var q := CleanEffect(o, es, vault, l, faults, n);
            Cleaned(es, q.0, l) && q.1 == vault - {l} && Unique(q.0)
  {
    hide View, Find, Touches, MarkCleanupAttempt, Acknowledge, Deletable, ValidReference;
    CountsAttempt(o, es, l);
    var es1 := MarkCleanupAttempt(o, es, l).entries;
    TouchedUnique(es, es1, l);
    Acknowledges(o, es1, l);
    TouchedUnique(es1, Acknowledge(o, es1, l).entries, l);
    AgreesElsewhere(es, es1, l);
    AgreesElsewhere(es1, Acknowledge(o, es1, l).entries, l);
  }

  lemma CleanupNames(o: Owner, es: seq<Entry>, l: Locator, f: Fault, vault: set<Locator>)
    ensures NextCleanup(o, es, Due(l), f) == (if Succeeds(MarkCleanupAttempt(o, es, l), f) then Attempted(l) else Rest)
    ensures NextCleanup(o, es, Attempted(l), f) == (if f == Done then Deleted(l) else Rest)
            && NextCleanup(o, es, Deleted(l), f) == Rest
    ensures SweptEntries(o, es, Due(l), f) == Written(es, MarkCleanupAttempt(o, es, l), f)
            && SweptEntries(o, es, Attempted(l), f) == es
    ensures SweptEntries(o, es, Deleted(l), f) == Written(es, Acknowledge(o, es, l), f)
    ensures SweptVault(vault, Due(l), f) == vault && SweptVault(vault, Deleted(l), f) == vault
    ensures SweptVault(vault, Attempted(l), f) == (if f == Refused then vault else vault - {l})
  {
    hide MarkCleanupAttempt, Acknowledge, Succeeds, Written;
  }

  /** The effect of cleaning one locator, as the three steps of the protocol. */
  lemma CleanIs(o: Owner, es: seq<Entry>, vault: set<Locator>, l: Locator, faults: nat -> Fault, n: nat)
    ensures var c1, c2, c3 := Due(l), Attempted(l), Deleted(l);
            var es1, v1 := SweptEntries(o, es, c1, faults(n)), SweptVault(vault, c2, faults(n + 1));
            CleanEffect(o, es, vault, l, faults, n) ==
              if NextCleanup(o, es, c1, faults(n)) == Rest then (es1, vault, n + 1)
              else if NextCleanup(o, es1, c2, faults(n + 1)) == Rest then (es1, v1, n + 2)
              else (SweptEntries(o, es1, c3, faults(n + 2)), v1, n + 3)
  {
    hide MarkCleanupAttempt, Acknowledge;
  }

  lemma CleanTurn(s: System, trace: seq<Action>, t: System, o: Owner, rest: set<Locator>, c: Cleanup, l: Locator,
                  f: Fault,
                  es: seq<Entry>, vault: set<Locator>, config: Option<Configuration>)
    requires Follows(s, trace, t, o, es, vault, config) && t.boot == Recovering(o, RecoverySweep(Cleaning(rest, c)))
             && c != Rest
    ensures var a := Recover(l, f);
            && Follows(s, trace + [a], Step(t, a), o, SweptEntries(o, es, c, f), SweptVault(vault, c, f), config)
            && Step(t, a).boot == Recovering(o, RecoverySweep(Cleaning(rest, NextCleanup(o, es, c, f))))
  {
    hide *;
    FollowsIs(s, trace, t, o, es, vault, config);
    CleanStep(t, o, rest, c, l, f, es, vault, config);
    FollowsOn(s, trace, t, Recover(l, f), o, SweptEntries(o, es, c, f), SweptVault(vault, c, f), config, es, vault);
    CleanupNames(o, es, l, f, vault);
  }

  lemma PickTurn(s: System, trace: seq<Action>, t: System, o: Owner, todo: set<Locator>, l: Locator,
                 es: seq<Entry>, vault: set<Locator>, config: Option<Configuration>)
    requires Follows(s, trace, t, o, es, vault, config) && t.boot == Recovering(o, RecoverySweep(Cleaning(todo, Rest)))
             && l in todo
    ensures var a := Recover(l, Done);
            && Follows(s, trace + [a], Step(t, a), o, es, vault, config)
            && Step(t, a).boot == Recovering(o, RecoverySweep(Cleaning(todo - {l}, Due(l))))
  {
    hide *;
    FollowsIs(s, trace, t, o, es, vault, config);
    PickStep(t, o, todo, l, Done, es, vault, config);
    FollowsOn(s, trace, t, Recover(l, Done), o, es, vault, config, es, vault);
  }

  /** Cleaning one locator is a run of recovery actions. */
  lemma CleanTrace(s: System, trace: seq<Action>, t: System, o: Owner, todo: set<Locator>, l: Locator,
                   faults: nat -> Fault, n: nat,
                   es: seq<Entry>, vault: set<Locator>, config: Option<Configuration>)
    returns (t': System, trace': seq<Action>)
    requires Follows(s, trace, t, o, es, vault, config) && t.boot == Recovering(o, RecoverySweep(Cleaning(todo, Rest)))
             && l in todo
    ensures var q := CleanEffect(o, es, vault, l, faults, n); Follows(s, trace', t', o, q.0, q.1, config)
    ensures t'.boot == Recovering(o, RecoverySweep(Cleaning(todo - {l}, Rest)))
  {
    hide *;
    var rest := todo - {l};
    CleanIs(o, es, vault, l, faults, n);
    PickTurn(s, trace, t, o, todo, l, es, vault, config);
    t', trace' := Step(t, Recover(l, Done)), trace + [Recover(l, Done)];
    CleanupNames(o, es, l, faults(n), vault);
    CleanTurn(s, trace', t', o, rest, Due(l), l, faults(n), es, vault, config);
    t', trace' := Step(t', Recover(l, faults(n))), trace' + [Recover(l, faults(n))];
    if NextCleanup(o, es, Due(l), faults(n)) != Rest {
      var es1 := SweptEntries(o, es, Due(l), faults(n));
      var v1 := SweptVault(vault, Attempted(l), faults(n + 1));
      CleanupNames(o, es1, l, faults(n + 1), vault);
      CleanTurn(s, trace', t', o, rest, Attempted(l), l, faults(n + 1), es1, vault, config);
      t', trace' := Step(t', Recover(l, faults(n + 1))), trace' + [Recover(l, faults(n + 1))];
      if NextCleanup(o, es1, Attempted(l), faults(n + 1)) != Rest {
        CleanupNames(o, es1, l, faults(n + 2), v1);
        CleanTurn(s, trace', t', o, rest, Deleted(l), l, faults(n + 2), es1, v1, config);
        t', trace' := Step(t', Recover(l, faults(n + 2))), trace' + [Recover(l, faults(n + 2))];
      }
    }
  }

  // A whole list

  /** The listed locators that are not configured. */
  function ToClean(list: seq<Entry>, active: set<Locator>): set<Locator> {
    set e | e in list && e.ref !in active :: e.ref
  }

  lemma ToCleanPending(es: seq<Entry>, active: set<Locator>)
    ensures Pending(es) - active == ToClean(PendingEntries(es), active)
  {}

  lemma ToCleanFirst(list: seq<Entry>, active: set<Locator>)
    requires list != [] && Unique(list)
    ensures list[0].ref in active ==> ToClean(list, active) == ToClean(list[1..], active)
    ensures list[0].ref !in active ==>
            && list[0].ref in ToClean(list, active) && list[0].ref !in ToClean(list[1..], active)
                                       && ToClean(list, active) == {list[0].ref} + ToClean(list[1..], active)
                                       && ToClean(list, active) - {list[0].ref} == ToClean(list[1..], active)
    ensures Unique(list[1..])
  {
    assert forall e :: e in list <==> e == list[0] || e in list[1..];
    assert forall j :: 0 <= j < |list| - 1 ==> list[1..][j] == list[j + 1];
  }

  lemma ToCleanNone(active: set<Locator>)
    ensures ToClean([], active) == {}
  {}

  /** What is left once everything in `gone` was cleaned. */
  ghost predicate CleanedAll(es0: seq<Entry>, es: seq<Entry>, gone: set<Locator>) {
    && (forall l :: l in View(es) <==> l in View(es0) && l !in gone)
    && (forall l :: l in View(es) ==> View(es)[l] == View(es0)[l])
  }

  lemma CleanedNone(es: seq<Entry>)
    ensures CleanedAll(es, es, {})
  {}

  lemma CleanedOneMore(es0: seq<Entry>, es: seq<Entry>, es': seq<Entry>, l: Locator, gone: set<Locator>)
    requires Cleaned(es0, es, l) && CleanedAll(es, es', gone)
    ensures CleanedAll(es0, es', {l} + gone)
  {
    hide View, Find;
  }

  lemma StillDeletable(es0: seq<Entry>, es: seq<Entry>, l: Locator, gone: set<Locator>)
    requires Cleaned(es0, es, l) && l !in gone && forall x :: x in gone ==> Deletable(es0, x)
    ensures forall x :: x in gone ==> Deletable(es, x)
  {
    hide View, Find;
  }

  lemma SweepIs(o: Owner, es: seq<Entry>, vault: set<Locator>, list: seq<Entry>, active: set<Locator>,
                faults: nat -> Fault, n: nat)
    ensures SweepEffect(o, es, vault, list, active, faults, n) ==
              if list == [] then (es, vault, n)
              else if list[0].ref in active then SweepEffect(o, es, vault, list[1..], active, faults, n)
              else var q := CleanEffect(o, es, vault, list[0].ref, faults, n);
                   SweepEffect(o, q.0, q.1, list[1..], active, faults, q.2)
  {
    hide CleanEffect;
  }

  /** Without a fault, a sweep clears exactly the listed locators that are not configured. */
  lemma {:induction false} SweepClears(o: Owner, es: seq<Entry>, vault: set<Locator>, list: seq<Entry>,
                                       active: set<Locator>, faults: nat -> Fault, n: nat)
    requires Unique(es) && Unique(list) && forall i: nat :: faults(i) == Done
    requires forall l :: l in ToClean(list, active) ==> Deletable(es, l) && ValidReference(o, l)
    ensures var q := SweepEffect(o, es, vault, list, active, faults, n);
            CleanedAll(es, q.0, ToClean(list, active)) && q.1 == vault - ToClean(list, active)
    decreases |list|
  {
    hide *;
    SweepIs(o, es, vault, list, active, faults, n);
    if list == [] {
      ToCleanNone(active);
      CleanedNone(es);
    } else {
      ToCleanFirst(list, active);
      var l, rest := list[0].ref, ToClean(list[1..], active);
      if l in active {
        SweepClears(o, es, vault, list[1..], active, faults, n);
      } else {
        var q := CleanEffect(o, es, vault, l, faults, n);
        CleansOne(o, es, vault, l, faults, n);
        StillDeletable(es, q.0, l, rest);
        SweepClears(o, q.0, q.1, list[1..], active, faults, q.2);
        CleanedOneMore(es, q.0, SweepEffect(o, q.0, q.1, list[1..], active, faults, q.2).0, l, rest);
      }
    }
  }

  /** A sweep at start-up is a run of recovery actions. */
  lemma {:induction false} SweepTrace(s: System, trace: seq<Action>, t: System, o: Owner, list: seq<Entry>,
                                      active: set<Locator>, faults: nat -> Fault, n: nat,
                                      es: seq<Entry>, vault: set<Locator>, config: Option<Configuration>)
    returns (t': System, trace': seq<Action>)
    requires Follows(s, trace, t, o, es, vault, config) && Unique(list)
    requires t.boot == Recovering(o, RecoverySweep(Cleaning(ToClean(list, active), Rest)))
    ensures var q := SweepEffect(o, es, vault, list, active, faults, n); Follows(s, trace', t', o, q.0, q.1, config)
    ensures t'.boot == Recovering(o, RecoverySweep(Cleaning({}, Rest)))
    decreases |list|
  {
    hide *;
    SweepIs(o, es, vault, list, active, faults, n);
    t', trace' := t, trace;
    if list == [] {
      ToCleanNone(active);
    } else {
      ToCleanFirst(list, active);
      if list[0].ref in active {
        t', trace' := SweepTrace(s, trace, t, o, list[1..], active, faults, n, es, vault, config);
      } else {
        var q := CleanEffect(o, es, vault, list[0].ref, faults, n);
        t', trace' := CleanTrace(s, trace, t, o, ToClean(list, active), list[0].ref, faults, n, es, vault, config);
        t', trace' := SweepTrace(s, trace', t', o, list[1..], active, faults, q.2, q.0, q.1, config);
      }
    }
  }

  const AnyLocator := Locator(SetupModel, 0, 0, false)

  /** A run that has finished with one owner, and what the stores hold then. */
  ghost predicate Ends(s: System, trace: seq<Action>, t: System, o: Owner, es: seq<Entry>, vault: set<Locator>,
                       config: Option<Configuration>) {
    && t == Exec(s, trace) && Recovers(trace) && Inv(t, false)
    && t.Ledger(o) == es && t.vault == vault && t.config == config && t.boot == NextRecovery(t, o)
    && t.Ledger(Other(o)) == s.Ledger(Other(o))
  }

  lemma EndsHere(s: System, trace: seq<Action>, t: System, a: Action, o: Owner, es: seq<Entry>, vault: set<Locator>,
                 config: Option<Configuration>)
    requires Follows(s, trace, t, o, es, vault, config) && (a.Recover? || a.SkipRecovery?)
    requires Step(t, a) == t.(boot := NextRecovery(t, o)) && Inv(Step(t, a), false)
    ensures Ends(s, trace + [a], Step(t, a), o, es, vault, config)
  {
    ExecSnoc(s, trace, a);
    BootLedger(t, NextRecovery(t, o));
    NextIsStable(t, Step(t, a), o);
    MirrorsIs(t, o, es, vault, config);
    hide Step, Exec, Mirrors, Inv, NextRecovery;
  }

  lemma ListTurn(s: System, trace: seq<Action>, t: System, o: Owner, w: Sweep, f: Fault, es: seq<Entry>,
                 vault: set<Locator>, config: Option<Configuration>)
    requires Follows(s, trace, t, o, es, vault, config) && t.boot == Recovering(o, RecoverySweep(w))
    requires w == LoadConfig || w == ListPending(ActiveRefs(config, o))
    ensures var a := Recover(AnyLocator, f);
            if f != Done then Ends(s, trace + [a], Step(t, a), o, es, vault, config)
            else && Follows(s, trace + [a], Step(t, a), o, es, vault, config)
                 && Step(t, a).boot == Recovering(o,
                                                  RecoverySweep(if w == LoadConfig
                                                                then ListPending(ActiveRefs(config, o))
                                                                   else Cleaning(Pending(es) - ActiveRefs(config, o),
                                                                                 Rest)))
  {
    hide *;
    FollowsIs(s, trace, t, o, es, vault, config);
    MirrorsIs(t, o, es, vault, config);
    ListStep(t, o, w, AnyLocator, f, es, vault, config);
    RecoveringStep(t, AnyLocator, f);
    if f == Done {
      FollowsOn(s, trace, t, Recover(AnyLocator, f), o, es, vault, config, es, vault);
    } else {
      EndsHere(s, trace, t, Recover(AnyLocator, f), o, es, vault, config);
    }
  }

  lemma EndTurn(s: System, trace: seq<Action>, t: System, o: Owner, es: seq<Entry>, vault: set<Locator>,
                config: Option<Configuration>)
    requires Follows(s, trace, t, o, es, vault, config) && t.boot == Recovering(o, RecoverySweep(Cleaning({}, Rest)))
    ensures Ends(s, trace + [Recover(AnyLocator, Done)], Step(t, Recover(AnyLocator, Done)), o, es, vault, config)
  {
    hide *;
    FollowsIs(s, trace, t, o, es, vault, config);
    MirrorsIs(t, o, es, vault, config);
    ListStep(t, o, Cleaning({}, Rest), AnyLocator, Done, es, vault, config);
    RecoveringStep(t, AnyLocator, Done);
    EndsHere(s, trace, t, Recover(AnyLocator, Done), o, es, vault, config);
  }

  lemma Limit()
    ensures MAX_ENTRIES == 16
  {}

  lemma WholeList(es: seq<Entry>)
    requires Unique(es) && |es| <= MAX_ENTRIES
    ensures var ps := PendingEntries(es); |ps| <= MAX_ENTRIES && ps[..|ps|] == ps && Unique(ps)
  {}

  lemma PendingReferences(o: Owner, es: seq<Entry>)
    requires forall e :: e in es ==> ValidEntry(o, e)
    ensures forall l :: l in Pending(es) ==> ValidReference(o, l)
  {}

  /** One bounded cleanup pass over what the ledger lists as pending. */
  method SweepPending(config: Option<Configuration>, ledger: LedgerStore, vault: Vault, faults: nat -> Fault, n: nat,
                      ghost s: System, ghost before: seq<Action>, ghost t0: System)
    returns (k: nat, ghost t: System, ghost trace: seq<Action>)
    requires Follows(s, before, t0, ledger.owner, ledger.entries, vault.secrets, config)
    requires t0.boot == Recovering(ledger.owner, RecoverySweep(LoadConfig))
    modifies ledger, vault
    ensures Ends(s, trace, t, ledger.owner, ledger.entries, vault.secrets, config)
    ensures var gone := Pending(old(ledger.entries)) - ActiveRefs(config, ledger.owner);
            (forall i :: faults(i) == Done) && (forall l :: l in gone ==> Deletable(old(ledger.entries), l)) ==>
              CleanedAll(old(ledger.entries), ledger.entries, gone) && vault.secrets == old(vault.secrets) - gone
  {
    hide *;
    ghost var o, es0, vs0 := ledger.owner, ledger.entries, vault.secrets;
    var active := ActiveRefs(config, ledger.owner);
    var load := if ledger.owner == ModelOwner then faults(n) else Done;
    k, t, trace := n + 1, t0, before;
    ListTurn(s, trace, t, o, LoadConfig, load, es0, vs0, config);
    t, trace := Step(t, Recover(AnyLocator, load)), trace + [Recover(AnyLocator, load)];
    if load != Done {
      return;
    }
    ListTurn(s, trace, t, o, ListPending(active), faults(k), es0, vs0, config);
    t, trace := Step(t, Recover(AnyLocator, faults(k))), trace + [Recover(AnyLocator, faults(k))];
    Limit();
    var listed := ledger.ListPending(16, faults(k));
    k := k + 1;
    if listed.None? {
      return;
    }
    var list := listed.value;
    FollowsFacts(s, trace, t, o, es0, vs0, config);
    WholeList(es0);
    ToCleanPending(es0, active);
    t, trace := SweepTrace(s, trace, t, o, list, active, faults, k, es0, vs0, config);
    if (forall i :: faults(i) == Done) && (forall l :: l in Pending(es0) - active ==> Deletable(es0, l)) {
      PendingReferences(o, es0);
      SweepClears(o, es0, vs0, list, active, faults, k);
    }
    k := SweepListed(ledger, vault, list, active, faults, k);
    EndTurn(s, trace, t, o, ledger.entries, vault.secrets, config);
    t, trace := Step(t, Recover(AnyLocator, Done)), trace + [Recover(AnyLocator, Done)];
  }

  // -------------------------------------------------------------------------
  // The whole pass
  // -------------------------------------------------------------------------

  /** The ledger holds nothing but active entries of configured credentials, at most one
      per track and each one that was ledgered before; every other credential that was
      ledgered is gone from the vault, and nothing else is. */
  ghost predicate Converged(es0: seq<Entry>, es: seq<Entry>, vs0: set<Locator>, vs: set<Locator>,
                            active: set<Locator>) {
    && (forall e :: e in es ==> e.phase == Active && e.ref in active)
    && (forall e, f :: e in es && f in es && e.ref.Track() == f.ref.Track() ==> e == f)
    && (forall e :: e in es0 && e.ref in active ==> e.ref in View(es))
    && vs == vs0 - (set e | e in es0 && e.ref !in active :: e.ref)
  }

  lemma ViewKeys(es: seq<Entry>)
    ensures forall l :: l in View(es) <==> exists e :: e in es && e.ref == l
    ensures forall l :: l in View(es) ==> View(es)[l].ref == l && View(es)[l] in es
  {
    forall l | l in View(es)
      ensures View(es)[l].ref == l && View(es)[l] in es
    {
      assert es[Find(es, l)] in es;
    }
    assert forall e :: e in es ==> Find(es, e.ref) >= 0;
  }

  lemma DecidedPhases(es1: seq<Entry>, es2: seq<Entry>, active: set<Locator>)
    requires DecidedUpTo(es1, |es1|, es2, active)
    ensures forall l :: l in View(es2) <==> l in View(es1)
    ensures forall l :: l in View(es2) ==>
            View(es2)[l].phase == (if l in active then Active else PendingCleanup)
            && View(es2)[l].attempts == View(es1)[l].attempts
  {
    ViewKeys(es1);
    hide View, Find;
    forall l | l in View(es2)
      ensures View(es2)[l].phase == (if l in active then Active else PendingCleanup)
    {
      var e := View(es1)[l];
      var j :| 0 <= j < |es1| && es1[j] == e;
      assert Decided(es2, es1[j].ref, active);
    }
  }

  lemma GoneIs(es2: seq<Entry>, active: set<Locator>)
    requires Unique(es2) && forall l :: l in View(es2) ==>
             View(es2)[l].phase == (if l in active then Active else PendingCleanup)
    ensures forall l :: l in Pending(es2) - active <==> l in View(es2) && l !in active
  {
    ViewKeys(es2);
    ViewIsLedger(es2);
    hide View, Find;
  }

  lemma AllDeletable(es0: seq<Entry>, es1: seq<Entry>, es2: seq<Entry>, active: set<Locator>)
    requires Grown(es0, es1, active) && DecidedUpTo(es1, |es1|, es2, active) && Unique(es2)
    requires forall e :: e in es0 ==> e.attempts < MAX_ATTEMPTS
    ensures forall l :: l in Pending(es2) - active ==> Deletable(es2, l)
  {
    ViewKeys(es0);
    DecidedPhases(es1, es2, active);
    GoneIs(es2, active);
    hide View, Find, DecidedUpTo, Pending;
  }

  lemma PassConverges(config: Configuration, o: Owner, es0: seq<Entry>, es1: seq<Entry>, es2: seq<Entry>,
                      es3: seq<Entry>,
                      vs0: set<Locator>, vs: set<Locator>, active: set<Locator>)
    requires ValidConfiguration(config) && active == Refs(config, o)
    requires Grown(es0, es1, active) && DecidedUpTo(es1, |es1|, es2, active) && Unique(es2) && Unique(es3)
    requires CleanedAll(es2, es3, Pending(es2) - active) && vs == vs0 - (Pending(es2) - active)
    ensures Converged(es0, es3, vs0, vs, active)
  {
    SweptEntriesAreActive(es0, es1, es2, es3, active);
    GoneAre(es0, es1, es2, active);
    OnePerTrack(config, o, es3);
    hide View, Find, Grown, DecidedUpTo, CleanedAll, Pending, Unique, Refs, ValidConfiguration;
  }

  lemma OnePerTrack(config: Configuration, o: Owner, es: seq<Entry>)
    requires ValidConfiguration(config) && Unique(es) && forall e :: e in es ==> e.ref in Refs(config, o)
    ensures forall e, f :: e in es && f in es && e.ref.Track() == f.ref.Track() ==> e == f
  {
    RefsFollowTracks(config);
    NamedByAny(config, o);
    ViewIsLedger(es);
    hide *;
    forall e, f | e in es && f in es && e.ref.Track() == f.ref.Track()
      ensures e == f
    {
      assert e.ref in AllRefs(config) && f.ref in AllRefs(config);
      assert View(es)[e.ref] == e && View(es)[f.ref] == f;
    }
  }

  lemma NamedByAny(c: Configuration, o: Owner)
    ensures Refs(c, o) <= AllRefs(c)
  {}

  lemma SweptEntriesAreActive(es0: seq<Entry>, es1: seq<Entry>, es2: seq<Entry>, es3: seq<Entry>, active: set<Locator>)
    requires Grown(es0, es1, active) && DecidedUpTo(es1, |es1|, es2, active) && Unique(es2) && Unique(es3)
    requires CleanedAll(es2, es3, Pending(es2) - active)
    ensures forall e :: e in es3 ==> e.phase == Active && e.ref in active
    ensures forall e :: e in es0 && e.ref in active ==> e.ref in View(es3)
  {
    DecidedPhases(es1, es2, active);
    GoneIs(es2, active);
    ViewKeys(es0);
    ViewIsLedger(es3);
    hide View, Find, DecidedUpTo, Pending;
    forall e | e in es3
      ensures e.phase == Active && e.ref in active
    {
      assert e.ref in View(es3) && View(es3)[e.ref] == e;
    }
  }

  lemma GoneAre(es0: seq<Entry>, es1: seq<Entry>, es2: seq<Entry>, active: set<Locator>)
    requires Grown(es0, es1, active) && DecidedUpTo(es1, |es1|, es2, active) && Unique(es2)
    ensures Pending(es2) - active == set e | e in es0 && e.ref !in active :: e.ref
  {
    DecidedPhases(es1, es2, active);
    GoneIs(es2, active);
    ViewKeys(es0);
    hide View, Find, DecidedUpTo, Pending;
  }

  /** Without a configuration there is nothing to keep. */
  lemma PassConvergesEmpty(es0: seq<Entry>, es1: seq<Entry>, es2: seq<Entry>, es3: seq<Entry>, vs0: set<Locator>,
                           vs: set<Locator>)
    requires Grown(es0, es1, {}) && DecidedUpTo(es1, |es1|, es2, {}) && Unique(es2) && Unique(es3)
    requires CleanedAll(es2, es3, Pending(es2) - {}) && vs == vs0 - (Pending(es2) - {})
    ensures Converged(es0, es3, vs0, vs, {})
  {
    SweptEntriesAreActive(es0, es1, es2, es3, {});
    GoneAre(es0, es1, es2, {});
    hide View, Find, Grown, DecidedUpTo, CleanedAll, Pending, Unique;
  }

  /** The ledger records every configured credential if and only if it had room for those that
      it did not know. */
  ghost predicate RecordsIfRoom(config: Option<Configuration>, o: Owner, es0: seq<Entry>, es: seq<Entry>) {
    var owners := ManagedOwners(config, o);
    (forall l :: l in owners ==> l in View(es)) <==> |es0| + Unledgered(es0, owners, |owners|) <= 16
  }

  lemma PassRecords(config: Option<Configuration>, o: Owner, es0: seq<Entry>, es1: seq<Entry>, es2: seq<Entry>,
                    es3: seq<Entry>, active: set<Locator>)
    requires active == ActiveRefs(config, o) && Taken(es0, es1, ManagedOwners(config, o), |ManagedOwners(config, o)|)
    requires DecidedUpTo(es1, |es1|, es2, active) && Unique(es2) && CleanedAll(es2, es3, Pending(es2) - active)
    ensures RecordsIfRoom(config, o, es0, es3)
  {
    hide View, Find, DecidedUpTo, Pending, Unledgered, ActiveRefs, ManagedOwners, Unique, CleanedAll;
    DecidedPhases(es1, es2, active);
    GoneIs(es2, active);
    KeptKeys(es2, es3, active);
    var owners := ManagedOwners(config, o);
    forall l | l in owners
      ensures l in active
    {
      ManagedAreActive(config, o, l);
    }
    AllOwners(es1, es3, owners);
  }

  lemma KeptKeys(es2: seq<Entry>, es3: seq<Entry>, active: set<Locator>)
    requires CleanedAll(es2, es3, Pending(es2) - active)
    ensures forall l :: l in active ==> (l in View(es3) <==> l in View(es2))
  {
    hide View, Pending;
  }

  lemma AllOwners(es1: seq<Entry>, es3: seq<Entry>, owners: seq<Locator>)
    requires forall l :: l in owners ==> (l in View(es3) <==> l in View(es1))
    ensures (forall l :: l in owners ==> l in View(es3)) <==> forall i :: 0 <= i < |owners| ==> owners[i] in View(es1)
  {
    hide View;
  }

  /** Start-up recovery of one owner: adopt what is configured, reconcile the ledger with
      the configuration, sweep. Whatever faults it meets it is a run of the protocol; when
      it meets none and no entry has used up its attempts, one pass converges, and records
      every configured credential if there is room. */
  method RecoverOperationalCleanup(config: Option<Configuration>, ledger: LedgerStore, vault: Vault,
                                   faults: nat -> Fault, ghost s: System)
    returns (ghost t: System, ghost trace: seq<Action>)
    requires Mirrors(s, ledger.owner, ledger.entries, vault.secrets, config) && s.boot == StartRecovery(s, ledger.owner)
    modifies ledger, vault
    ensures Ends(s, trace, t, ledger.owner, ledger.entries, vault.secrets, config)
    ensures (forall i :: faults(i) == Done) && (forall e :: e in old(ledger.entries) ==> e.attempts < MAX_ATTEMPTS) ==>
              Converged(old(ledger.entries), ledger.entries, old(vault.secrets), vault.secrets,
                        ActiveRefs(config, ledger.owner))
              && RecordsIfRoom(config, ledger.owner, old(ledger.entries), ledger.entries)
  {
    hide *;
    ghost var o, es0, vs0, active := ledger.owner, ledger.entries, vault.secrets, ActiveRefs(config, ledger.owner);
    NothingYet(s);
    FollowsIs(s, [], s, o, es0, vs0, config);
    var k: nat;
    k, t, trace := AdoptConfigured(config, ledger, faults, vs0, s, [], s);
    ghost var es1 := ledger.entries;
    FollowsIs(s, trace, t, o, es1, vs0, config);
    FollowsFacts(s, trace, t, o, es1, vs0, config);
    var loaded := ledger.Load(faults(k));
    if loaded.None? {
      SkipTurn(s, trace, t, o, es1, vs0, config);
      t, trace := Step(t, SkipRecovery), trace + [SkipRecovery];
      return;
    }
    k := k + 1;
    SnapshotTurn(s, trace, t, o, es1, vs0, config);
    t, trace := Step(t, Recover(AnyLocator, Done)), trace + [Recover(AnyLocator, Done)];
    k, t, trace := ReconcileEntries(config, ledger, loaded.value, faults, k, vs0, s, trace, t);
    ghost var es2 := ledger.entries;
    FollowsFacts(s, trace, t, o, es2, vs0, config);
    SettledTurn(s, trace, t, o, es2, vs0, config);
    t, trace := Step(t, Recover(AnyLocator, Done)), trace + [Recover(AnyLocator, Done)];
    k, t, trace := SweepPending(config, ledger, vault, faults, k, s, trace, t);
    EndsFacts(s, trace, t, o, ledger.entries, vault.secrets, config);
    if (forall i :: faults(i) == Done) && (forall e :: e in es0 ==> e.attempts < MAX_ATTEMPTS) {
      AllDeletable(es0, es1, es2, active);
      PassRecords(config, o, es0, es1, es2, ledger.entries, active);
      ActiveIs(config, o);
      if config.Some? {
        PassConverges(config.value, o, es0, es1, es2, ledger.entries, vs0, vault.secrets, active);
      } else {
        PassConvergesEmpty(es0, es1, es2, ledger.entries, vs0, vault.secrets);
      }
    }
  }

  lemma ActiveIs(config: Option<Configuration>, o: Owner)
    ensures ActiveRefs(config, o) == if config.Some? then Refs(config.value, o) else {}
  {}

  lemma EndsFacts(s: System, trace: seq<Action>, t: System, o: Owner, es: seq<Entry>, vault: set<Locator>,
                  config: Option<Configuration>)
    requires Ends(s, trace, t, o, es, vault, config)
    ensures Unique(es) && (config.Some? ==> ValidConfiguration(config.value))
  {
    LedgerFacts(t, false, o);
    PartFacts(t, false, o);
    hide Inv;
  }

  lemma SkipTurn(s: System, trace: seq<Action>, t: System, o: Owner, es: seq<Entry>, vault: set<Locator>,
                 config: Option<Configuration>)
    requires Follows(s, trace, t, o, es, vault, config)
    ensures Ends(s, trace + [SkipRecovery], Step(t, SkipRecovery), o, es, vault, config)
  {
    hide *;
    FollowsIs(s, trace, t, o, es, vault, config);
    MirrorsIs(t, o, es, vault, config);
    StepShape(t, SkipRecovery);
    NextKeeps(t, false, o);
    EndsHere(s, trace, t, SkipRecovery, o, es, vault, config);
  }

  lemma SnapshotTurn(s: System, trace: seq<Action>, t: System, o: Owner, es: seq<Entry>, vault: set<Locator>,
                     config: Option<Configuration>)
    requires Follows(s, trace, t, o, es, vault, config) && t.boot == Recovering(o, AdoptOwners({}))
    ensures var a := Recover(AnyLocator, Done);
            Follows(s, trace + [a], Step(t, a), o, es, vault, config)
            && Step(t, a).boot == Recovering(o, Reconcile(View(es)))
  {
    hide *;
    FollowsIs(s, trace, t, o, es, vault, config);
    SnapshotStep(t, o, Done, AnyLocator, es, vault, config);
    FollowsOn(s, trace, t, Recover(AnyLocator, Done), o, es, vault, config, es, vault);
  }

  lemma SettledTurn(s: System, trace: seq<Action>, t: System, o: Owner, es: seq<Entry>, vault: set<Locator>,
                    config: Option<Configuration>)
    requires Follows(s, trace, t, o, es, vault, config) && t.boot == Recovering(o, Reconcile(map[]))
    ensures var a := Recover(AnyLocator, Done);
            Follows(s, trace + [a], Step(t, a), o, es, vault, config)
            && Step(t, a).boot == Recovering(o, RecoverySweep(LoadConfig))
  {
    hide *;
    FollowsIs(s, trace, t, o, es, vault, config);
    ReconciledAllStep(t, o, Done, AnyLocator, es, vault, config);
    FollowsOn(s, trace, t, Recover(AnyLocator, Done), o, es, vault, config, es, vault);
  }

  /** The whole start: both owners, one after the other, in a state that a crash left. */
  method RecoverAtStart(config: Option<Configuration>, modelLedger: LedgerStore, voiceLedger: LedgerStore, vault: Vault,
                        faults: nat -> Fault, voiceFaults: nat -> Fault, ghost s: System)
    returns (ghost t: System, ghost trace: seq<Action>)
    requires modelLedger.owner == ModelOwner && voiceLedger.owner == VoiceOwner
    requires Inv(s, false) && s.boot == StartRecovery(s, ModelOwner) && s.config == config && s.vault == vault.secrets
    requires s.modelLedger == modelLedger.entries && s.voiceLedger == voiceLedger.entries
    modifies modelLedger, voiceLedger, vault
    ensures t == Exec(s, trace) && Recovers(trace) && Inv(t, false) && t.boot == Serving
    ensures t.config == config && t.vault == vault.secrets && t.modelLedger == modelLedger.entries
            && t.voiceLedger == voiceLedger.entries
    ensures (forall i :: faults(i) == Done && voiceFaults(i) == Done)
            && (forall e :: e in s.modelLedger + s.voiceLedger ==> e.attempts < MAX_ATTEMPTS) ==>
              exists mid ::
                && Converged(s.modelLedger, t.modelLedger, s.vault, mid, ActiveRefs(config, ModelOwner))
                && Converged(s.voiceLedger, t.voiceLedger, mid, t.vault, ActiveRefs(config, VoiceOwner))
                && RecordsIfRoom(config, ModelOwner, s.modelLedger, t.modelLedger)
                && RecordsIfRoom(config, VoiceOwner, s.voiceLedger, t.voiceLedger)
  {
    ModelStarts(s, config);
    hide *;
    ghost var u, first := RecoverOperationalCleanup(config, modelLedger, vault, faults, s);
    VoiceStarts(s, first, u, modelLedger.entries, vault.secrets, config);
    ghost var mid := vault.secrets;
    ghost var second;
    t, second := RecoverOperationalCleanup(config, voiceLedger, vault, voiceFaults, u);
    VoiceEnds(s, first, u, modelLedger.entries, mid, second, t, voiceLedger.entries, vault.secrets, config);
    trace := first + second;
  }

  lemma VoiceStarts(s: System, first: seq<Action>, u: System, es: seq<Entry>, vault: set<Locator>,
                    config: Option<Configuration>)
    requires Ends(s, first, u, ModelOwner, es, vault, config)
    ensures Mirrors(u, VoiceOwner, s.voiceLedger, vault, config) && u.boot == StartRecovery(u, VoiceOwner)
  {
    hide Inv, Exec;
  }

  lemma VoiceEnds(s: System, first: seq<Action>, u: System, es: seq<Entry>, mid: set<Locator>,
                  second: seq<Action>, t: System, vs: seq<Entry>, vault: set<Locator>, config: Option<Configuration>)
    requires Ends(s, first, u, ModelOwner, es, mid, config) && Ends(u, second, t, VoiceOwner, vs, vault, config)
    ensures t == Exec(s, first + second) && Recovers(first + second) && Inv(t, false) && t.boot == Serving
    ensures t.config == config && t.vault == vault && t.modelLedger == es && t.voiceLedger == vs
  {
    ExecSplit(s, first, second);
    hide Inv, Exec;
  }

  lemma ModelStarts(s: System, config: Option<Configuration>)
    requires Inv(s, false) && s.boot == StartRecovery(s, ModelOwner) && s.config == config
    ensures Mirrors(s, ModelOwner, s.modelLedger, s.vault, config)
  {}
}
