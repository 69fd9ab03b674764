/** Retirement after a drain: what a change replaced is retired and then swept, on the
    stores written in place; a run of the protocol's background task that, without faults,
    ends with the replaced credentials gone. */
module Retirements {
  import opened Wrappers
  import opened Configurations
  import opened CleanupLedgers
  import opened CredentialProtocol
  import opened CredentialStores
  import opened ProtocolInvariant
  import opened ProtocolSteps
  import opened ProtocolCommit
  import opened ProtocolAdvance
  import opened ProtocolRecovery
  import opened ProtocolRuns
  import opened ProtocolHistory
  import opened ProtocolGuarantees
  import opened Startup
  import opened RecoveryPass

  /** The run has led here: the task is at `w` and the stores are as given. */
  ghost predicate Tends(s: System, trace: seq<Action>, t: System, id: nat, w: Task, es: seq<Entry>,
                        vault: set<Locator>, config: Option<Configuration>) {
    && t == Exec(s, trace) && Inv(t, false) && t.boot == Serving && id in t.tasks && t.tasks[id] == w
    && t.Ledger(w.owner) == es && t.vault == vault && t.config == config
  }

  /** The run has led here and the task is over. */
  ghost predicate Over(s: System, trace: seq<Action>, t: System, id: nat, o: Owner, es: seq<Entry>,
                       vault: set<Locator>, config: Option<Configuration>) {
    && t == Exec(s, trace) && Inv(t, false) && t.boot == Serving && id !in t.tasks
    && t.Ledger(o) == es && t.vault == vault && t.config == config
  }

  lemma TendsIs(s: System, trace: seq<Action>, t: System, id: nat, w: Task, es: seq<Entry>, vault: set<Locator>,
                config: Option<Configuration>)
    ensures Tends(s, trace, t, id, w, es, vault, config) <==>
              && t == Exec(s, trace) && Inv(t, false) && t.boot == Serving && id in t.tasks && t.tasks[id] == w
              && t.Ledger(w.owner) == es && t.vault == vault && t.config == config
  {}

  lemma TendsFacts(s: System, trace: seq<Action>, t: System, id: nat, w: Task, es: seq<Entry>, vault: set<Locator>,
                   config: Option<Configuration>)
    requires Tends(s, trace, t, id, w, es, vault, config)
    ensures Unique(es) && |es| <= MAX_ENTRIES && forall e :: e in es ==> ValidEntry(w.owner, e)
  {
    LedgerFacts(t, false, w.owner);
    forall e | e in es
      ensures ValidEntry(w.owner, e)
    {
      EntryFacts(t, false, w.owner, e);
    }
    hide Inv;
  }

  lemma Maintained(t: System, id: nat, l: Locator, f: Fault)
    requires Inv(t, false) && t.boot == Serving
    ensures Step(t, Maintain(id, l, f)) == DoMaintain(t, id, l, f) && Inv(Step(t, Maintain(id, l, f)), false)
  {
    hide *;
    StepShape(t, Maintain(id, l, f));
    MaintainIsSound(t, id, l, f);
    StepKeeps(t, false, Maintain(id, l, f));
  }

  lemma MaintainIsSound(t: System, id: nat, l: Locator, f: Fault)
    ensures Sound(t, Maintain(id, l, f), false)
  {}

  /** One step of the task: from `x`, which differs in the stores only, to the task's next position. */
  lemma TendOn(s: System, trace: seq<Action>, t: System, id: nat, w: Task, w': Task, l: Locator, f: Fault, x: System,
               es: seq<Entry>, es': seq<Entry>, vault: set<Locator>, vault': set<Locator>,
               config: Option<Configuration>)
    requires Tends(s, trace, t, id, w, es, vault, config) && w'.owner == w.owner
    requires DoMaintain(t, id, l, f) == x.(tasks := x.tasks[id := w'])
    requires x.boot == Serving && x.Ledger(w.owner) == es' && x.vault == vault' && x.config == config
    ensures var a := Maintain(id, l, f); Tends(s, trace + [a], Step(t, a), id, w', es', vault', config)
  {
    TendsIs(s, trace, t, id, w, es, vault, config);
    Maintained(t, id, l, f);
    ExecSnoc(s, trace, Maintain(id, l, f));
    TaskLedger(x, w.owner, x.tasks[id := w']);
    TendsIs(s, trace + [Maintain(id, l, f)], Step(t, Maintain(id, l, f)), id, w', es', vault', config);
    hide *;
  }

  lemma TaskLedger(x: System, o: Owner, tasks: map<nat, Task>)
    ensures x.(tasks := tasks).Ledger(o) == x.Ledger(o)
  {}

  lemma TendOff(s: System, trace: seq<Action>, t: System, id: nat, w: Task, l: Locator, f: Fault, x: System,
                es: seq<Entry>, es': seq<Entry>, vault: set<Locator>, vault': set<Locator>,
                config: Option<Configuration>)
    requires Tends(s, trace, t, id, w, es, vault, config)
    requires DoMaintain(t, id, l, f) == x.(tasks := x.tasks - {id})
    requires x.boot == Serving && x.Ledger(w.owner) == es' && x.vault == vault' && x.config == config
    ensures var a := Maintain(id, l, f); Over(s, trace + [a], Step(t, a), id, w.owner, es', vault', config)
  {
    TendsIs(s, trace, t, id, w, es, vault, config);
    Maintained(t, id, l, f);
    ExecSnoc(s, trace, Maintain(id, l, f));
    TaskLedger(x, w.owner, x.tasks - {id});
    OverIs(s, trace + [Maintain(id, l, f)], Step(t, Maintain(id, l, f)), id, w.owner, es', vault', config);
    hide *;
  }

  lemma OverIs(s: System, trace: seq<Action>, t: System, id: nat, o: Owner, es: seq<Entry>, vault: set<Locator>,
               config: Option<Configuration>)
    ensures Over(s, trace, t, id, o, es, vault, config) <==>
              && t == Exec(s, trace) && Inv(t, false) && t.boot == Serving && id !in t.tasks
              && t.Ledger(o) == es && t.vault == vault && t.config == config
  {}

  lemma DropTurn(s: System, trace: seq<Action>, t: System, id: nat, w: Task, es: seq<Entry>, vault: set<Locator>,
                 config: Option<Configuration>)
    requires Tends(s, trace, t, id, w, es, vault, config)
    ensures Over(s, trace + [DropTask(id)], Step(t, DropTask(id)), id, w.owner, es, vault, config)
  {
    hide *;
    TendsIs(s, trace, t, id, w, es, vault, config);
    StepShape(t, DropTask(id));
    DropIsSound(t, id);
    StepKeeps(t, false, DropTask(id));
    ExecSnoc(s, trace, DropTask(id));
    TaskLedger(t, w.owner, t.tasks - {id});
    OverIs(s, trace + [DropTask(id)], Step(t, DropTask(id)), id, w.owner, es, vault, config);
  }

  lemma DropIsSound(t: System, id: nat)
    ensures Sound(t, DropTask(id), false)
  {}

  // -------------------------------------------------------------------------
  // The turns of the task
  // -------------------------------------------------------------------------

  lemma DrainTurn(s: System, trace: seq<Action>, t: System, id: nat, o: Owner, replaced: set<Locator>,
                  serial: Option<nat>,
                  es: seq<Entry>, vault: set<Locator>, config: Option<Configuration>)
    requires Tends(s, trace, t, id, AwaitDrain(o, replaced, serial), es, vault, config)
    requires serial.Some? ==> serial.value !in t.runtimes
    ensures var a := Maintain(id, AnyLocator, Done);
            Tends(s, trace + [a], Step(t, a), id, Retiring(o, ActiveGenerations(es, replaced)), es, vault, config)
    ensures forall l :: l in replaced ==> OwnDoomed(Ctx(Step(t, Maintain(id, AnyLocator, Done)), false), o, l)
  {
    hide *;
    var w := AwaitDrain(o, replaced, serial);
    var w' := Retiring(o, ActiveGenerations(es, replaced));
    TendsIs(s, trace, t, id, w, es, vault, config);
    DrainedShape(t, id, AnyLocator, Done);
    TendOn(s, trace, t, id, w, w', AnyLocator, Done, t, es, es, vault, vault, config);
    PartFacts(t, false, o);
    DrainedIsDoomed(t, false, o, replaced, serial);
    Maintained(t, id, AnyLocator, Done);
    TasksFrame(t, false, t.tasks[id := w']);
  }

  lemma RetireTurn(s: System, trace: seq<Action>, t: System, id: nat, o: Owner, retire: map<Locator, int>, l: Locator,
                   f: Fault,
                   es: seq<Entry>, vault: set<Locator>, config: Option<Configuration>)
    requires Tends(s, trace, t, id, Retiring(o, retire), es, vault, config) && l in retire
    ensures var a, r := Maintain(id, l, f), Retire(o, es, l, retire[l]);
            if Succeeds(r, f)
            then Tends(s, trace + [a], Step(t, a), id, Retiring(o, retire - {l}), Written(es, r, f), vault, config)
            else Over(s, trace + [a], Step(t, a), id, o, Written(es, r, f), vault, config)
  {
    hide *;
    var w, r := Retiring(o, retire), Retire(o, es, l, retire[l]);
    TendsIs(s, trace, t, id, w, es, vault, config);
    RetiringShape(t, id, l, f);
    NonemptyRetire(retire, l);
    var x := Apply(t, o, r, f);
    BootAfter(t, Serving, o, r, f);
    if Succeeds(r, f) {
      TendOn(s, trace, t, id, w, Retiring(o, retire - {l}), l, f, x, es, Written(es, r, f), vault, vault, config);
    } else {
      TendOff(s, trace, t, id, w, l, f, x, es, Written(es, r, f), vault, vault, config);
    }
  }

  lemma NonemptyRetire(m: map<Locator, int>, l: Locator)
    requires l in m
    ensures m != map[]
  {}

  lemma RetiredTurn(s: System, trace: seq<Action>, t: System, id: nat, o: Owner, es: seq<Entry>, vault: set<Locator>,
                    config: Option<Configuration>)
    requires Tends(s, trace, t, id, Retiring(o, map[]), es, vault, config)
    ensures var a := Maintain(id, AnyLocator, Done);
            Tends(s, trace + [a], Step(t, a), id, Sweeping(o, LoadConfig), es, vault, config)
  {
    hide *;
    TendsIs(s, trace, t, id, Retiring(o, map[]), es, vault, config);
    RetiringShape(t, id, AnyLocator, Done);
    TendOn(s, trace, t, id, Retiring(o, map[]), Sweeping(o, LoadConfig), AnyLocator, Done, t, es, es, vault, vault,
           config);
  }

  /** Loading, listing and reaching the end of the sweep. */
  lemma ListTurn(s: System, trace: seq<Action>, t: System, id: nat, o: Owner, w: Sweep, f: Fault, es: seq<Entry>,
                 vault: set<Locator>, config: Option<Configuration>)
    requires Tends(s, trace, t, id, Sweeping(o, w), es, vault, config)
    requires w == LoadConfig || w == ListPending(ActiveRefs(config, o)) || w == Cleaning({}, Rest)
    ensures var a := Maintain(id, AnyLocator, f);
            if w.Cleaning? || f != Done then Over(s, trace + [a], Step(t, a), id, o, es, vault, config)
            else Tends(s, trace + [a], Step(t, a), id,
                       Sweeping(o,
                                if w == LoadConfig then ListPending(ActiveRefs(config, o))
                                else Cleaning(Pending(es) - ActiveRefs(config, o), Rest)),
                       es, vault, config)
  {
    hide *;
    TendsIs(s, trace, t, id, Sweeping(o, w), es, vault, config);
    SweepingShape(t, id, AnyLocator, f);
    ListShape(t, o, AnyLocator, f, ActiveRefs(config, o));
    SweepIsCleanup(t, o, {}, Rest, AnyLocator, f);
    if w.Cleaning? || f != Done {
      TendOff(s, trace, t, id, Sweeping(o, w), AnyLocator, f, t, es, es, vault, vault, config);
    } else {
      var w' := if w == LoadConfig then ListPending(ActiveRefs(config, o))
          else Cleaning(Pending(es) - ActiveRefs(config, o), Rest);
      TendOn(s, trace, t, id, Sweeping(o, w), Sweeping(o, w'), AnyLocator, f, t, es, es, vault, vault, config);
    }
  }

  lemma PickTurn(s: System, trace: seq<Action>, t: System, id: nat, o: Owner, todo: set<Locator>, l: Locator,
                 es: seq<Entry>, vault: set<Locator>, config: Option<Configuration>)
    requires Tends(s, trace, t, id, Sweeping(o, Cleaning(todo, Rest)), es, vault, config) && l in todo
    ensures var a := Maintain(id, l, Done);
            Tends(s, trace + [a], Step(t, a), id, Sweeping(o, Cleaning(todo - {l}, Due(l))), es, vault, config)
  {
    hide *;
    TendsIs(s, trace, t, id, Sweeping(o, Cleaning(todo, Rest)), es, vault, config);
    SweepingShape(t, id, l, Done);
    SweepIsCleanup(t, o, todo, Rest, l, Done);
    TendOn(s, trace, t, id, Sweeping(o, Cleaning(todo, Rest)), Sweeping(o, Cleaning(todo - {l}, Due(l))), l, Done, t,
           es, es, vault, vault, config);
  }

  lemma CleanTurn(s: System, trace: seq<Action>, t: System, id: nat, o: Owner, rest: set<Locator>, c: Cleanup,
                  l: Locator, f: Fault,
                  es: seq<Entry>, vault: set<Locator>, config: Option<Configuration>)
    requires Tends(s, trace, t, id, Sweeping(o, Cleaning(rest, c)), es, vault, config) && c != Rest
    ensures var a := Maintain(id, l, f);
            Tends(s, trace + [a], Step(t, a), id, Sweeping(o, Cleaning(rest, NextCleanup(o, es, c, f))),
                  SweptEntries(o, es, c, f), SweptVault(vault, c, f), config)
  {
    hide *;
    TendsIs(s, trace, t, id, Sweeping(o, Cleaning(rest, c)), es, vault, config);
    SweepingShape(t, id, l, f);
    SweepStays(t, o, Cleaning(rest, c), l, f);
    SweepIsCleanup(t, o, rest, c, l, f);
    Startup.CleanupFields(t, o, c, f);
    var q := CleanupStep(t, o, c, f);
    TendOn(s, trace, t, id, Sweeping(o, Cleaning(rest, c)), Sweeping(o, Cleaning(rest, q.1)), l, f, q.0,
           es, SweptEntries(o, es, c, f), vault, SweptVault(vault, c, f), config);
  }

  lemma CleanTend(s: System, trace: seq<Action>, t: System, id: nat, o: Owner, todo: set<Locator>, l: Locator,
                  faults: nat -> Fault, n: nat,
                  es: seq<Entry>, vault: set<Locator>, config: Option<Configuration>)
    returns (t': System, trace': seq<Action>)
    requires Tends(s, trace, t, id, Sweeping(o, Cleaning(todo, Rest)), es, vault, config) && l in todo
    ensures var q := CleanEffect(o, es, vault, l, faults, n);
            Tends(s, trace', t', id, Sweeping(o, Cleaning(todo - {l}, Rest)), q.0, q.1, config)
  {
    hide *;
    var rest := todo - {l};
    CleanIs(o, es, vault, l, faults, n);
    PickTurn(s, trace, t, id, o, todo, l, es, vault, config);
    t', trace' := Step(t, Maintain(id, l, Done)), trace + [Maintain(id, l, Done)];
    CleanupNames(o, es, l, faults(n), vault);
    CleanTurn(s, trace', t', id, o, rest, Due(l), l, faults(n), es, vault, config);
    t', trace' := Step(t', Maintain(id, l, faults(n))), trace' + [Maintain(id, l, faults(n))];
    if NextCleanup(o, es, Due(l), faults(n)) != Rest {
      var es1 := SweptEntries(o, es, Due(l), faults(n));
      var v1 := SweptVault(vault, Attempted(l), faults(n + 1));
      CleanupNames(o, es1, l, faults(n + 1), vault);
      CleanTurn(s, trace', t', id, o, rest, Attempted(l), l, faults(n + 1), es1, vault, config);
      t', trace' := Step(t', Maintain(id, l, faults(n + 1))), trace' + [Maintain(id, l, faults(n + 1))];
      if NextCleanup(o, es1, Attempted(l), faults(n + 1)) != Rest {
        CleanupNames(o, es1, l, faults(n + 2), v1);
        CleanTurn(s, trace', t', id, o, rest, Deleted(l), l, faults(n + 2), es1, v1, config);
        t', trace' := Step(t', Maintain(id, l, faults(n + 2))), trace' + [Maintain(id, l, faults(n + 2))];
      }
    }
  }

  /** A sweep after a drain is a run of the background task. */
  lemma {:induction false} SweepTend(s: System, trace: seq<Action>, t: System, id: nat, o: Owner, list: seq<Entry>,
                                     active: set<Locator>, faults: nat -> Fault,
                                     n: nat, es: seq<Entry>, vault: set<Locator>, config: Option<Configuration>)
    returns (t': System, trace': seq<Action>)
    requires Tends(s, trace, t, id, Sweeping(o, Cleaning(ToClean(list, active), Rest)), es, vault, config)
             && Unique(list)
    ensures var q := SweepEffect(o, es, vault, list, active, faults, n);
            Tends(s, trace', t', id, Sweeping(o, Cleaning({}, Rest)), q.0, q.1, config)
    decreases |list|
  {
    hide *;
    SweepIs(o, es, vault, list, active, faults, n);
    t', trace' := t, trace;
    if list == [] {
      ToCleanNone(active);
    } else {
      ToCleanFirst(list, active);
      if list[0].ref in active {
        t', trace' := SweepTend(s, trace, t, id, o, list[1..], active, faults, n, es, vault, config);
      } else {
        var q := CleanEffect(o, es, vault, list[0].ref, faults, n);
        t', trace' := CleanTend(s, trace, t, id, o, ToClean(list, active), list[0].ref, faults, n, es, vault, config);
        t', trace' := SweepTend(s, trace', t', id, o, list[1..], active, faults, q.2, q.0, q.1, config);
      }
    }
  }

  // -------------------------------------------------------------------------
  // Retiring what was replaced
  // -------------------------------------------------------------------------

  /** The generation that a locator is recorded to own. */
  function ExactActive(es: seq<Entry>, l: Locator): Option<int> {
    var i := Find(es, l);
    if i >= 0 && es[i].phase == Active then es[i].committedGeneration else None
  }

  /** The locators of `done` that owned a generation are pending deletion now; nothing else changed. */
  ghost predicate RetiredUpTo(es0: seq<Entry>, es: seq<Entry>, done: set<Locator>) {
    && (forall l :: l in View(es) <==> l in View(es0))
    && (forall l :: l in View(es) ==>
          View(es)[l] == if l in done && View(es0)[l].phase == Active
          then View(es0)[l].(phase := PendingCleanup, reason := Retired) else View(es0)[l])
  }

  lemma RetiredNone(es: seq<Entry>)
    ensures RetiredUpTo(es, es, {})
  {}

  lemma ExactIs(o: Owner, es: seq<Entry>, l: Locator)
    requires forall e :: e in es ==> ValidEntry(o, e)
    ensures ExactActive(es, l) == if l in View(es) && View(es)[l].phase == Active then View(es)[l].committedGeneration
            else None
    ensures ExactActive(es, l).Some? <==> l in View(es) && View(es)[l].phase == Active
  {
    var i := Find(es, l);
    if i >= 0 {
      assert es[i] in es;
    }
  }

  lemma RetireWorks(o: Owner, es: seq<Entry>, l: Locator)
    requires Unique(es) && (forall e :: e in es ==> ValidEntry(o, e)) && l in View(es) && View(es)[l].phase == Active
    ensures View(es)[l].committedGeneration.Some?
    ensures var r := Retire(o, es, l, View(es)[l].committedGeneration.value);
            && r.Ok? && Touches(es, r.entries, l) && l in View(r.entries)
            && View(r.entries)[l] == View(es)[l].(phase := PendingCleanup, reason := Retired)
  {
    var e := es[Find(es, l)];
    assert e in es && View(es)[l] == e;
    RetireEffect(o, es, l, e.committedGeneration.value);
    hide View, Unique, Touches;
  }

  lemma RetiredSkip(es0: seq<Entry>, es: seq<Entry>, done: set<Locator>, l: Locator)
    requires RetiredUpTo(es0, es, done) && (l in View(es0) ==> View(es0)[l].phase != Active)
    ensures RetiredUpTo(es0, es, done + {l})
  {
    hide View, Find;
  }

  lemma RetiredMore(es0: seq<Entry>, es: seq<Entry>, es': seq<Entry>, done: set<Locator>, l: Locator)
    requires RetiredUpTo(es0, es, done) && l !in done && l in View(es) && View(es)[l].phase == Active
    requires AgreeExcept(View(es), View(es'), l) && l in View(es')
             && View(es')[l] == View(es)[l].(phase := PendingCleanup, reason := Retired)
    ensures RetiredUpTo(es0, es', done + {l})
  {
    hide View, Find;
    forall x
      ensures x in View(es') <==> x in View(es0)
      ensures x in View(es') ==>
              View(es')[x] == if x in done + {l} && View(es0)[x].phase == Active
              then View(es0)[x].(phase := PendingCleanup, reason := Retired) else View(es0)[x]
    {
      assert x != l ==> SameAt(View(es), View(es'), x);
    }
  }

  lemma RetiredAt(es0: seq<Entry>, es: seq<Entry>, done: set<Locator>, l: Locator)
    requires RetiredUpTo(es0, es, done) && l !in done
    ensures (l in View(es) <==> l in View(es0)) && (l in View(es) ==> View(es)[l] == View(es0)[l])
  {
    hide View, Find;
  }

  lemma ExactRetires(o: Owner, es0: seq<Entry>, es: seq<Entry>, done: set<Locator>, l: Locator)
    requires Unique(es) && (forall e :: e in es0 ==> ValidEntry(o, e)) && (forall e :: e in es ==> ValidEntry(o, e))
    requires RetiredUpTo(es0, es, done) && l !in done
    ensures var g := ExactActive(es0, l);
            if g.None? then RetiredUpTo(es0, es, done + {l})
            else var r := Retire(o, es, l, g.value); r.Ok? && RetiredUpTo(es0, r.entries, done + {l})
  {
    ExactIs(o, es0, l);
    RetiredAt(es0, es, done, l);
    hide View, Find, Unique, ValidEntry, Retire, ExactActive, RetiredUpTo, AgreeExcept;
    if ExactActive(es0, l).Some? {
      RetireWorks(o, es, l);
      RetiredMore(es0, es, Retire(o, es, l, View(es)[l].committedGeneration.value).entries, done, l);
    } else {
      RetiredSkip(es0, es, done, l);
    }
  }

  /** The task's own list of what to retire, as the loop works through it. */
  lemma NextToRetire(es: seq<Entry>, owners: seq<Locator>, i: nat)
    requires i < |owners| && forall a, b :: 0 <= a < b < |owners| ==> owners[a] != owners[b]
    ensures var l, g, m := owners[i], ExactActive(es, owners[i]), ActiveGenerations(es, Remaining(owners, i));
            if g.None? then ActiveGenerations(es, Remaining(owners, i + 1)) == m
            else l in m && m[l] == g.value && ActiveGenerations(es, Remaining(owners, i + 1)) == m - {l}
  {
    RemainingStep(owners, i);
  }

  lemma AllToRetire(es: seq<Entry>, o: Owner, replaced: Configuration, owners: seq<Locator>)
    requires owners == ManagedOwners(Some(replaced), o)
    ensures Remaining(owners, 0) == ManagedRefs(replaced, o)
    ensures ActiveGenerations(es, Remaining(owners, |owners|)) == map[]
  {}

  lemma RetiredSoFar(owners: seq<Locator>, i: nat)
    requires i < |owners| && forall a, b :: 0 <= a < b < |owners| ==> owners[a] != owners[b]
    ensures owners[i] !in Seen(owners, i) && Seen(owners, i + 1) == Seen(owners, i) + {owners[i]}
  {}

  function Seen(owners: seq<Locator>, i: nat): set<Locator>
    requires i <= |owners|
  {
    set j | 0 <= j < i :: owners[j]
  }

  lemma SeenAndRemaining(owners: seq<Locator>, o: Owner, previous: Configuration)
    requires owners == ManagedOwners(Some(previous), o)
    ensures Seen(owners, 0) == {} && Seen(owners, |owners|) == ManagedRefs(previous, o) == Remaining(owners, 0)
  {}

  lemma OwnersDiffer(owners: seq<Locator>, o: Owner, previous: Configuration)
    requires owners == ManagedOwners(Some(previous), o) && ValidConfiguration(previous)
    ensures forall a, b :: 0 <= a < b < |owners| ==> owners[a] != owners[b]
  {}

  /** What a change replaced is no longer configured. */
  lemma ReplacedIsUnnamed(s: System, trace: seq<Action>, t: System, id: nat, o: Owner, replaced: set<Locator>,
                          serial: Option<nat>,
                          es: seq<Entry>, vault: set<Locator>, config: Option<Configuration>)
    requires Tends(s, trace, t, id, AwaitDrain(o, replaced, serial), es, vault, config)
    ensures replaced * ActiveRefs(config, o) == {}
  {
    TendsIs(s, trace, t, id, AwaitDrain(o, replaced, serial), es, vault, config);
    PartFacts(t, false, o);
    assert TaskOk(Ctx(t, false), t.vault, t.tasks[id]);
    hide Inv, Exec, MutationOk, LedgerOk, BootOk, VaultOk;
    forall l | l in replaced
      ensures l !in ActiveRefs(config, o)
    {
      assert Replaced(Ctx(t, false), l);
    }
  }

  /** Every locator that the replaced configuration named and that still owns a generation
      is retired; the first failure ends the task. */
  method RetireReplaced(previous: Configuration, ledger: LedgerStore, faults: nat -> Fault, ghost id: nat,
                        ghost serial: Option<nat>,
                        ghost vault: set<Locator>, ghost config: Option<Configuration>, ghost s: System)
    returns (k: nat, ok: bool, ghost t: System, ghost trace: seq<Action>)
    requires ValidConfiguration(previous) && (serial.Some? ==> serial.value !in s.runtimes)
    requires Tends(s, [], s, id, AwaitDrain(ledger.owner, ManagedRefs(previous, ledger.owner), serial), ledger.entries,
                   vault, config)
    modifies ledger
    ensures if ok then Tends(s, trace, t, id, Sweeping(ledger.owner, LoadConfig), ledger.entries, vault, config)
            else Over(s, trace, t, id, ledger.owner, ledger.entries, vault, config)
    ensures ok ==> RetiredUpTo(old(ledger.entries), ledger.entries, ManagedRefs(previous, ledger.owner))
    ensures (forall i :: faults(i) == Done) ==> ok
  {
    hide *;
    ghost var o, es0 := ledger.owner, ledger.entries;
    ghost var replaced := ManagedRefs(previous, o);
    var owners := ManagedOwners(Some(previous), ledger.owner);
    OwnersDiffer(owners, o, previous);
    SeenAndRemaining(owners, o, previous);
    t, trace, k := s, [], 0;
    var snapshot: seq<Entry> := [];
    if owners != [] || ledger.owner == VoiceOwner {
      var loaded := ledger.Load(faults(0));
      k := 1;
      if loaded.None? {
        DropTurn(s, trace, t, id, AwaitDrain(o, replaced, serial), es0, vault, config);
        t, trace := Step(t, DropTask(id)), trace + [DropTask(id)];
        return k, false, t, trace;
      }
      snapshot := loaded.value;
    }
    TendsFacts(s, trace, t, id, AwaitDrain(o, replaced, serial), es0, vault, config);
    DrainTurn(s, trace, t, id, o, replaced, serial, es0, vault, config);
    t, trace := Step(t, Maintain(id, AnyLocator, Done)), trace + [Maintain(id, AnyLocator, Done)];
    RetiredNone(es0);
    var i := 0;
    while i < |owners|
      invariant 0 <= i <= |owners| && ledger.owner == o
      invariant Tends(s, trace, t, id, Retiring(o, ActiveGenerations(es0, Remaining(owners, i))), ledger.entries,
                      vault, config)
      invariant RetiredUpTo(es0, ledger.entries, Seen(owners, i))
    {
      ghost var es, m := ledger.entries, ActiveGenerations(es0, Remaining(owners, i));
      TendsFacts(s, trace, t, id, Retiring(o, m), es, vault, config);
      NextToRetire(es0, owners, i);
      RetiredSoFar(owners, i);
      ExactRetires(o, es0, es, Seen(owners, i), owners[i]);
      var exact := ExactActive(snapshot, owners[i]);
      if exact.Some? {
        RetireTurn(s, trace, t, id, o, m, owners[i], faults(k), es, vault, config);
        t, trace := Step(t, Maintain(id, owners[i], faults(k))), trace + [Maintain(id, owners[i], faults(k))];
        ResultOf(es, Retire(o, es, owners[i], exact.value), faults(k));
        ok := ledger.RetireEntry(owners[i], exact.value, faults(k));
        k := k + 1;
        if !ok {
          return k, false, t, trace;
        }
      }
      i := i + 1;
    }
    AllToRetire(es0, o, previous, owners);
    RetiredTurn(s, trace, t, id, o, ledger.entries, vault, config);
    t, trace := Step(t, Maintain(id, AnyLocator, Done)), trace + [Maintain(id, AnyLocator, Done)];
    ok := true;
  }

  lemma ResultOf(es: seq<Entry>, r: LedgerResult, f: Fault)
    ensures r.Ok? && f == Done ==> Succeeds(r, f) && Written(es, r, f) == r.entries
    ensures Succeeds(r, f) ==> r.Ok? && f == Done
  {}

  /** The sweep that follows. */
  method SweepAfterDrain(config: Option<Configuration>, ledger: LedgerStore, vault: Vault, faults: nat -> Fault,
                         n: nat, ghost id: nat,
                         ghost s: System, ghost before: seq<Action>, ghost t0: System)
    returns (ghost t: System, ghost trace: seq<Action>)
    requires Tends(s, before, t0, id, Sweeping(ledger.owner, LoadConfig), ledger.entries, vault.secrets, config)
    modifies ledger, vault
    ensures Over(s, trace, t, id, ledger.owner, ledger.entries, vault.secrets, config)
    ensures var gone := Pending(old(ledger.entries)) - ActiveRefs(config, ledger.owner);
            (forall i :: faults(i) == Done) && (forall l :: l in gone ==> Deletable(old(ledger.entries), l)) ==>
              CleanedAll(old(ledger.entries), ledger.entries, gone) && vault.secrets == old(vault.secrets) - gone
  {
    hide *;
    ghost var o, es0, vs0 := ledger.owner, ledger.entries, vault.secrets;
    var active := ActiveRefs(config, ledger.owner);
    t, trace := t0, before;
    ListTurn(s, trace, t, id, o, LoadConfig, faults(n), es0, vs0, config);
    t, trace := Step(t, Maintain(id, AnyLocator, faults(n))), trace + [Maintain(id, AnyLocator, faults(n))];
    if faults(n) != Done {
      return;
    }
    ListTurn(s, trace, t, id, o, ListPending(active), faults(n + 1), es0, vs0, config);
    t, trace := Step(t, Maintain(id, AnyLocator, faults(n + 1))), trace + [Maintain(id, AnyLocator, faults(n + 1))];
    Limit();
    var listed := ledger.ListPending(16, faults(n + 1));
    if listed.None? {
      return;
    }
    var list := listed.value;
    ToCleanPending(es0, active);
    ghost var todo := Pending(es0) - active;
    TendsFacts(s, trace, t, id, Sweeping(o, Cleaning(todo, Rest)), es0, vs0, config);
    WholeList(es0);
    t, trace := SweepTend(s, trace, t, id, o, list, active, faults, n + 2, es0, vs0, config);
    if (forall i :: faults(i) == Done) && (forall l :: l in todo ==> Deletable(es0, l)) {
      PendingReferences(o, es0);
      SweepClears(o, es0, vs0, list, active, faults, n + 2);
    }
    var k := SweepListed(ledger, vault, list, active, faults, n + 2);
    ListTurn(s, trace, t, id, o, Cleaning({}, Rest), Done, ledger.entries, vault.secrets, config);
    t, trace := Step(t, Maintain(id, AnyLocator, Done)), trace + [Maintain(id, AnyLocator, Done)];
  }

  // -------------------------------------------------------------------------
  // The whole task
  // -------------------------------------------------------------------------

  /** What is to go: the locators already pending and the replaced ones that own a
      generation, unless the configuration names them. */
  ghost function Outdated(es: seq<Entry>, replaced: set<Locator>, active: set<Locator>): set<Locator> {
    set e | e in es && e.ref !in active
    && (e.phase == PendingCleanup || (e.phase == Active && e.ref in replaced)) :: e.ref
  }

  lemma PendingAfterRetiring(es0: seq<Entry>, es1: seq<Entry>, replaced: set<Locator>, active: set<Locator>)
    requires Unique(es0) && Unique(es1) && RetiredUpTo(es0, es1, replaced)
    ensures Pending(es1) - active == Outdated(es0, replaced, active)
  {
    ViewKeys(es0);
    ViewKeys(es1);
    ViewIsLedger(es0);
    ViewIsLedger(es1);
    hide View, Find, Unique;
  }

  lemma RetiredDeletable(es0: seq<Entry>, es1: seq<Entry>, replaced: set<Locator>, gone: set<Locator>)
    requires Unique(es1) && RetiredUpTo(es0, es1, replaced) && gone <= Pending(es1)
    requires forall e :: e in es0 ==> e.attempts < MAX_ATTEMPTS
    ensures forall l :: l in gone ==> Deletable(es1, l)
  {
    ViewKeys(es0);
    ViewIsLedger(es1);
    hide View, Find, Unique;
  }

  lemma RetiredThenCleaned(es0: seq<Entry>, es1: seq<Entry>, es: seq<Entry>, replaced: set<Locator>,
                           active: set<Locator>)
    requires Unique(es0) && RetiredUpTo(es0, es1, replaced) && replaced * active == {}
    requires CleanedAll(es1, es, Outdated(es0, replaced, active))
    ensures CleanedAll(es0, es, Outdated(es0, replaced, active))
  {
    ViewKeys(es0);
    hide View, Find, Unique;
    forall l | l in View(es)
      ensures View(es)[l] == View(es0)[l]
    {
      var e := View(es0)[l];
      assert e in es0 && e.ref == l && View(es)[l] == View(es1)[l];
      assert l !in replaced * active && l !in Outdated(es0, replaced, active);
    }
  }

  /** Retirement after a drain, from the moment the receipt of the swap has resolved. */
  method RetireAfterDrain(previous: Configuration, config: Option<Configuration>, ledger: LedgerStore, vault: Vault,
                          faults: nat -> Fault,
                          ghost id: nat, ghost serial: Option<nat>, ghost s: System)
    returns (ghost t: System, ghost trace: seq<Action>)
    requires ValidConfiguration(previous) && (serial.Some? ==> serial.value !in s.runtimes)
    requires Tends(s, [], s, id, AwaitDrain(ledger.owner, ManagedRefs(previous, ledger.owner), serial), ledger.entries,
                   vault.secrets, config)
    modifies ledger, vault
    ensures Over(s, trace, t, id, ledger.owner, ledger.entries, vault.secrets, config)
    ensures ManagedRefs(previous, ledger.owner) * ActiveRefs(config, ledger.owner) == {}
    ensures (forall i :: faults(i) == Done) && (forall e :: e in old(ledger.entries) ==> e.attempts < MAX_ATTEMPTS) ==>
              var gone := Outdated(old(ledger.entries), ManagedRefs(previous, ledger.owner),
                                   ActiveRefs(config, ledger.owner));
              CleanedAll(old(ledger.entries), ledger.entries, gone) && vault.secrets == old(vault.secrets) - gone
  {
    hide *;
    ghost var o, es0, vs0 := ledger.owner, ledger.entries, vault.secrets;
    ghost var replaced, active := ManagedRefs(previous, o), ActiveRefs(config, o);
    ReplacedIsUnnamed(s, [], s, id, o, replaced, serial, es0, vs0, config);
    TendsFacts(s, [], s, id, AwaitDrain(o, replaced, serial), es0, vs0, config);
    var k, ok;
    k, ok, t, trace := RetireReplaced(previous, ledger, faults, id, serial, vs0, config, s);
    if !ok {
      return;
    }
    ghost var es1 := ledger.entries;
    TendsFacts(s, trace, t, id, Sweeping(o, LoadConfig), es1, vs0, config);
    PendingAfterRetiring(es0, es1, replaced, active);
    t, trace := SweepAfterDrain(config, ledger, vault, faults, k, id, s, trace, t);
    if (forall i :: faults(i) == Done) && (forall e :: e in es0 ==> e.attempts < MAX_ATTEMPTS) {
      RetiredDeletable(es0, es1, replaced, Pending(es1) - active);
      RetiredThenCleaned(es0, es1, ledger.entries, replaced, active);
    }
  }
}
