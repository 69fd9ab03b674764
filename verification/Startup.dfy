/** Start-up recovery of one owner's credentials: the loops that run before anything else
    can touch the stores, proved to be a run of the protocol and to converge. */
module Startup {
  import opened Wrappers
  import opened Configurations
  import opened CleanupLedgers
  import opened CredentialProtocol
  import opened CredentialStores
  import opened ProtocolInvariant
  import opened ProtocolSteps
  import opened ProtocolCommit
  import opened ProtocolAdvance
  import opened ProtocolRecovery
  import opened ProtocolRuns
  import opened ProtocolHistory
  import opened ProtocolGuarantees

  /** The configuration's locators of one owner that its pattern recognises, in order. */
  function ManagedOwners(c: Option<Configuration>, o: Owner): (ls: seq<Locator>)
    ensures forall l :: l in ls <==> c.Some? && l in ManagedRefs(c.value, o)
    ensures c.Some? && ValidConfiguration(c.value) ==> forall i, j :: 0 <= i < j < |ls| ==> ls[i] != ls[j]
  {
    if c.None? then []
    else if o == ModelOwner then
      var l := c.value.draft.model.credential;
      if l.managed then [l] else []
    else if c.value.draft.voice.None? then []
    else
      var v := c.value.draft.voice.value;
      (if v.asr.credential.Some? && v.asr.credential.value.managed then [v.asr.credential.value] else [])
      + (if v.tts.credential.Some? && v.tts.credential.value.managed then [v.tts.credential.value] else [])
  }

  // -------------------------------------------------------------------------
  // One recovery step, seen from the stores
  // -------------------------------------------------------------------------

  /** The stores hold what the state says, and the state is in order. */
  ghost predicate Mirrors(s: System, o: Owner, es: seq<Entry>, vault: set<Locator>, config: Option<Configuration>) {
    && Inv(s, false) && s.boot.Recovering? && s.boot.owner == o
    && s.Ledger(o) == es && s.vault == vault && s.config == config
  }

  lemma RecoveringStep(s: System, l: Locator, f: Fault)
    requires Inv(s, false) && s.boot.Recovering?
    ensures Step(s, Recover(l, f)) == DoRecover(s, s.boot.owner, s.boot.stage, l, f)
    ensures Inv(Step(s, Recover(l, f)), false) && Sound(s, Recover(l, f), false)
  {
    hide *;
    StepShape(s, Recover(l, f));
    NeverLoses(s, l, f);
    StepKeeps(s, false, Recover(l, f));
  }

  lemma NeverLoses(s: System, l: Locator, f: Fault)
    ensures Sound(s, Recover(l, f), false)
  {}

  lemma BootAfter(s: System, b: Boot, o: Owner, r: LedgerResult, f: Fault)
    ensures var t := Apply(s, o, r, f);
            && t.Ledger(o) == Written(s.Ledger(o), r, f) && t.vault == s.vault && t.config == s.config
            && t.boot == s.boot
            && t.(boot := b).Ledger(o) == t.Ledger(o) && s.(boot := b).Ledger(o) == s.Ledger(o)
  {}

  lemma AdoptStep(s: System, o: Owner, adopt: set<Locator>, l: Locator, f: Fault, es: seq<Entry>, vault: set<Locator>,
                  config: Option<Configuration>)
    requires Mirrors(s, o, es, vault, config) && s.boot == Recovering(o, AdoptOwners(adopt)) && l in adopt
             && config.Some?
    ensures var t := Step(s, Recover(l, f));
            && t.boot == Recovering(o, AdoptOwners(adopt - {l}))
            && Mirrors(t, o, Written(es, AdoptCommitted(o, es, l, config.value.generation), f), vault, config)
  {
    MirrorsIs(s, o, es, vault, config);
    hide *;
    RecoveringStep(s, l, f);
    AdoptOwnersShape(s, o, adopt, l, f);
    var r := AdoptCommitted(o, es, l, config.value.generation);
    BootAfter(s, Recovering(o, AdoptOwners(adopt - {l})), o, r, f);
    MakesMirror(Step(s, Recover(l, f)), o, Written(es, r, f), vault, config);
  }

  lemma MirrorsIs(s: System, o: Owner, es: seq<Entry>, vault: set<Locator>, config: Option<Configuration>)
    requires Mirrors(s, o, es, vault, config)
    ensures Inv(s, false) && s.boot.Recovering? && s.boot.owner == o && s.Ledger(o) == es && s.vault == vault
            && s.config == config
    ensures config.Some? ==> ValidConfiguration(config.value)
    ensures Unique(es) && |es| <= MAX_ENTRIES && forall e :: e in es ==> ValidEntry(o, e)
  {
    LedgerFacts(s, false, o);
    forall e | e in es
      ensures ValidEntry(o, e)
    {
      EntryFacts(s, false, o, e);
    }
  }

  lemma MakesMirror(t: System, o: Owner, es: seq<Entry>, vault: set<Locator>, config: Option<Configuration>)
    requires Inv(t, false) && t.boot.Recovering? && t.boot.owner == o && t.Ledger(o) == es && t.vault == vault
             && t.config == config
    ensures Mirrors(t, o, es, vault, config)
  {}

  lemma SnapshotStep(s: System, o: Owner, f: Fault, l: Locator, es: seq<Entry>, vault: set<Locator>,
                     config: Option<Configuration>)
    requires Mirrors(s, o, es, vault, config) && s.boot == Recovering(o, AdoptOwners({}))
    ensures var t := Step(s, Recover(l, f));
            t.boot == Recovering(o, Reconcile(View(es))) && Mirrors(t, o, es, vault, config)
  {
    MirrorsIs(s, o, es, vault, config);
    hide *;
    RecoveringStep(s, l, f);
    AdoptOwnersShape(s, o, {}, l, f);
    BootAfter(s, Recovering(o, Reconcile(View(es))), o, Err(Malformed), f);
    MakesMirror(Step(s, Recover(l, f)), o, es, vault, config);
  }

  /** What start-up does about one entry of its snapshot. */
  function Reconciled(o: Owner, es: seq<Entry>, e: Entry, active: set<Locator>, f: Fault): seq<Entry> {
    if e.phase == Staged then
      if e.ref in active
      then Written(es, MarkCommitted(o, es, e.ref, e.expectedGeneration, e.expectedGeneration + 1), f)
      else Written(es, AbandonStaged(o, es, e.ref), f)
    else if e.phase == Active && e.ref !in active && e.committedGeneration.Some? then
      Written(es, Retire(o, es, e.ref, e.committedGeneration.value), f)
    else es
  }

  function ActiveRefs(config: Option<Configuration>, o: Owner): set<Locator> {
    if config.Some? then Refs(config.value, o) else {}
  }

  lemma ReconciledFields(s: System, o: Owner, e: Entry, f: Fault)
    ensures var t := ReconcileEntry(s, o, e, f);
            && t.Ledger(o) == Reconciled(o, s.Ledger(o), e, ActiveRefs(s.config, o), f)
            && t.vault == s.vault && t.config == s.config && t.boot == s.boot
  {
    hide Retire, AbandonStaged, MarkCommitted;
  }

  lemma ReconcileStep(s: System, o: Owner, rest: map<Locator, Entry>, e: Entry, f: Fault, es: seq<Entry>,
                      vault: set<Locator>, config: Option<Configuration>)
    requires Mirrors(s, o, es, vault, config) && s.boot == Recovering(o, Reconcile(rest)) && e.ref in rest
             && rest[e.ref] == e
    ensures var t := Step(s, Recover(e.ref, f));
            && t.boot == Recovering(o, Reconcile(rest - {e.ref}))
            && Mirrors(t, o, Reconciled(o, es, e, ActiveRefs(config, o), f), vault, config)
    ensures e.ref in View(es) && View(es)[e.ref] == e
  {
    MirrorsIs(s, o, es, vault, config);
    hide *;
    RecoveringStep(s, e.ref, f);
    ReconcileShape(s, o, rest, e.ref, f);
    NonemptyMap(rest, e.ref);
    BootFacts(s, false, o);
    ReconcileFacts(Ctx(s, false), View(es), vault, o, rest, e.ref);
    var b := Recovering(o, Reconcile(rest - {e.ref}));
    BootAfter(s, b, o, Err(Malformed), f);
    ReconciledFields(s.(boot := b), o, e, f);
    MakesMirror(Step(s, Recover(e.ref, f)), o, Reconciled(o, es, e, ActiveRefs(config, o), f), vault, config);
  }

  lemma NonemptyMap(m: map<Locator, Entry>, l: Locator)
    requires l in m
    ensures m != map[]
  {}

  lemma ReconciledAllStep(s: System, o: Owner, f: Fault, l: Locator, es: seq<Entry>, vault: set<Locator>,
                          config: Option<Configuration>)
    requires Mirrors(s, o, es, vault, config) && s.boot == Recovering(o, Reconcile(map[]))
    ensures var t := Step(s, Recover(l, f));
            t.boot == Recovering(o, RecoverySweep(LoadConfig)) && Mirrors(t, o, es, vault, config)
  {
    MirrorsIs(s, o, es, vault, config);
    hide *;
    RecoveringStep(s, l, f);
    ReconcileShape(s, o, map[], l, f);
    BootAfter(s, Recovering(o, RecoverySweep(LoadConfig)), o, Err(Malformed), f);
    MakesMirror(Step(s, Recover(l, f)), o, es, vault, config);
  }

  // The closing pass

  /** One effect of the pass, on the stores. */
  function SweptEntries(o: Owner, es: seq<Entry>, c: Cleanup, f: Fault): seq<Entry> {
    match c
    case Due(l) => Written(es, MarkCleanupAttempt(o, es, l), f)
    case Deleted(l) => Written(es, Acknowledge(o, es, l), f)
    case _ => es
  }

  function SweptVault(vault: set<Locator>, c: Cleanup, f: Fault): set<Locator> {
    if c.Attempted? && f != Refused then vault - {c.l} else vault
  }

  function NextCleanup(o: Owner, es: seq<Entry>, c: Cleanup, f: Fault): Cleanup {
    match c
    case Rest => Rest
    case Due(l) => if Succeeds(MarkCleanupAttempt(o, es, l), f) then Attempted(l) else Rest
    case Attempted(l) => if f == Done then Deleted(l) else Rest
    case Deleted(l) => Rest
  }

  lemma CleanupFields(s: System, o: Owner, c: Cleanup, f: Fault)
    ensures var q := CleanupStep(s, o, c, f);
            && q.0.Ledger(o) == SweptEntries(o, s.Ledger(o), c, f) && q.0.vault == SweptVault(s.vault, c, f)
            && q.0.config == s.config && q.0.boot == s.boot && q.1 == NextCleanup(o, s.Ledger(o), c, f)
  {
    hide MarkCleanupAttempt, Acknowledge;
  }

  lemma SweepIsCleanup(s: System, o: Owner, todo: set<Locator>, c: Cleanup, l: Locator, f: Fault)
    ensures SweepStep(s, o, Cleaning(todo, c), l, f) ==
            if c != Rest then (CleanupStep(s, o, c, f).0, Some(Cleaning(todo, CleanupStep(s, o, c, f).1)))
            else if todo == {} then (s, None)
            else if l in todo then (s, Some(Cleaning(todo - {l}, Due(l))))
            else (s, Some(Cleaning(todo, c)))
  {
    hide CleanupStep;
  }

  lemma CleanStep(s: System, o: Owner, todo: set<Locator>, c: Cleanup, l: Locator, f: Fault, es: seq<Entry>,
                  vault: set<Locator>, config: Option<Configuration>)
    requires Mirrors(s, o, es, vault, config) && s.boot == Recovering(o, RecoverySweep(Cleaning(todo, c))) && c != Rest
    ensures var t := Step(s, Recover(l, f));
            && t.boot == Recovering(o, RecoverySweep(Cleaning(todo, NextCleanup(o, es, c, f))))
            && Mirrors(t, o, SweptEntries(o, es, c, f), SweptVault(vault, c, f), config)
  {
    MirrorsIs(s, o, es, vault, config);
    hide *;
    RecoveringStep(s, l, f);
    RecoverySweepShape(s, o, Cleaning(todo, c), l, f);
    SweepIsCleanup(s, o, todo, c, l, f);
    CleanupFields(s, o, c, f);
    var q := CleanupStep(s, o, c, f);
    BootAfter(q.0, Recovering(o, RecoverySweep(Cleaning(todo, q.1))), o, Err(Malformed), f);
    MakesMirror(Step(s, Recover(l, f)), o, SweptEntries(o, es, c, f), SweptVault(vault, c, f), config);
  }

  lemma PickStep(s: System, o: Owner, todo: set<Locator>, l: Locator, f: Fault, es: seq<Entry>, vault: set<Locator>,
                 config: Option<Configuration>)
    requires Mirrors(s, o, es, vault, config) && s.boot == Recovering(o, RecoverySweep(Cleaning(todo, Rest)))
             && l in todo
    ensures var t := Step(s, Recover(l, f));
            && t.boot == Recovering(o, RecoverySweep(Cleaning(todo - {l}, Due(l)))) && Mirrors(t, o, es, vault, config)
  {
    MirrorsIs(s, o, es, vault, config);
    hide *;
    RecoveringStep(s, l, f);
    RecoverySweepShape(s, o, Cleaning(todo, Rest), l, f);
    SweepIsCleanup(s, o, todo, Rest, l, f);
    BootAfter(s, Recovering(o, RecoverySweep(Cleaning(todo - {l}, Due(l)))), o, Err(Malformed), f);
    MakesMirror(Step(s, Recover(l, f)), o, es, vault, config);
  }

  lemma ListShape(s: System, o: Owner, l: Locator, f: Fault, skip: set<Locator>)
    ensures SweepStep(s, o, LoadConfig, l, f) == (s,
                                                  if f == Done then Some(ListPending(ActiveRefs(s.config, o)))
                                                  else None)
    ensures SweepStep(s, o, ListPending(skip), l, f) == (s,
                                                         if f == Done
                                                         then Some(Cleaning(Pending(s.Ledger(o)) - skip, Rest))
                                                              else None)
  {
    hide Pending;
  }

  /** Loading the configuration, listing what is pending and reaching the end are steps
      without a durable effect. */
  lemma ListStep(s: System, o: Owner, w: Sweep, l: Locator, f: Fault, es: seq<Entry>, vault: set<Locator>,
                 config: Option<Configuration>)
    requires Mirrors(s, o, es, vault, config) && s.boot == Recovering(o, RecoverySweep(w))
    requires w == LoadConfig || w == ListPending(ActiveRefs(config, o)) || w == Cleaning({}, Rest)
    ensures var t := Step(s, Recover(l, f));
            if w.Cleaning? || f != Done then t == s.(boot := NextRecovery(s, o))
            else if w == LoadConfig
                 then t == s.(boot := Recovering(o, RecoverySweep(ListPending(ActiveRefs(config, o)))))
                      && Mirrors(t, o, es, vault, config)
            else t == s.(boot := Recovering(o, RecoverySweep(Cleaning(Pending(es) - ActiveRefs(config, o), Rest))))
                 && Mirrors(t, o, es, vault, config)
  {
    MirrorsIs(s, o, es, vault, config);
    hide *;
    RecoveringStep(s, l, f);
    RecoverySweepShape(s, o, w, l, f);
    ListShape(s, o, l, f, ActiveRefs(config, o));
    SweepIsCleanup(s, o, {}, Rest, l, f);
    var t := Step(s, Recover(l, f));
    BootAfter(s, t.boot, o, Err(Malformed), f);
    if !w.Cleaning? && f == Done {
      MakesMirror(t, o, es, vault, config);
    }
  }

  // The other owner's ledger

  lemma ApplyOther(s: System, o: Owner, r: LedgerResult, f: Fault, b: Boot)
    ensures Apply(s, o, r, f).Ledger(Other(o)) == s.Ledger(Other(o))
            && s.(boot := b).Ledger(Other(o)) == s.Ledger(Other(o))
  {}

  lemma CleanupOther(s: System, o: Owner, c: Cleanup, f: Fault)
    ensures CleanupStep(s, o, c, f).0.Ledger(Other(o)) == s.Ledger(Other(o))
  {}

  lemma SweepOther(s: System, o: Owner, w: Sweep, l: Locator, f: Fault)
    ensures SweepStep(s, o, w, l, f).0.Ledger(Other(o)) == s.Ledger(Other(o))
  {
    hide CleanupStep;
    if w.Cleaning? {
      CleanupOther(s, o, w.cleanup, f);
    }
  }

  lemma ReconcileOther(s: System, o: Owner, e: Entry, f: Fault)
    ensures ReconcileEntry(s, o, e, f).Ledger(Other(o)) == s.Ledger(Other(o))
  {
    hide MarkCommitted, AbandonStaged, Retire;
  }

  /** Start-up of one owner leaves the other owner's ledger alone. */
  lemma OtherLedgerStays(s: System, l: Locator, f: Fault)
    requires s.boot.Recovering?
    ensures DoRecover(s, s.boot.owner, s.boot.stage, l, f).Ledger(Other(s.boot.owner)) == s.Ledger(Other(s.boot.owner))
  {
    hide *;
    var o, t := s.boot.owner, DoRecover(s, s.boot.owner, s.boot.stage, l, f);
    ApplyOther(s, o, Err(Malformed), f, t.boot);
    match s.boot.stage
    case AdoptOwners(adopt) =>
      AdoptOwnersShape(s, o, adopt, l, f);
      if s.config.Some? {
        var r := AdoptCommitted(o, s.Ledger(o), l, s.config.value.generation);
        ApplyOther(s, o, r, f, t.boot);
        ApplyOther(Apply(s, o, r, f), o, r, f, t.boot);
      }
    case Reconcile(entries) =>
      ReconcileShape(s, o, entries, l, f);
      if l in entries {
        var b := Recovering(o, Reconcile(entries - {l}));
        ApplyOther(s, o, Err(Malformed), f, b);
        ReconcileOther(s.(boot := b), o, entries[l], f);
      }
    case RecoverySweep(w) =>
      RecoverySweepShape(s, o, w, l, f);
      SweepOther(s, o, w, l, f);
      ApplyOther(SweepStep(s, o, w, l, f).0, o, Err(Malformed), f, t.boot);
  }
}
