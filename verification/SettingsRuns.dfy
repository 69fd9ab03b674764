/** One settings change, seen from the stores that it writes: each durable effect of the
    change is one more action of a run of the protocol. */
module SettingsRuns {
  import opened Wrappers
  import opened Configurations
  import opened CleanupLedgers
  import opened CredentialProtocol
  import opened CredentialStores
  import opened ProtocolInvariant
  import opened ProtocolSteps
  import opened ProtocolCommit
  import opened ProtocolAdvance
  import opened ProtocolActions
  import opened ProtocolRuntimes
  import opened ProtocolRuns
  import opened ProtocolHistory
  import opened ProtocolGuarantees
  import RecoveryPass

  datatype Probe = Ready | Failed(reason: string)

  datatype Outcome =
    | Configured(generation: int)
    | Conflicting
    | Cancelled
    | Busy
    | Unavailable
    | ProbeFailed(reason: string)

  /** Something that may stand in the way of a change, and what it is then answered. */
  datatype Obstacle = Obstacle(holds: bool, answer: Outcome)

  /** The answer of the first obstacle of a list that holds. */
  function First(os: seq<Obstacle>): (r: Option<Outcome>)
    ensures r.None? <==> forall i :: 0 <= i < |os| ==> !os[i].holds
    ensures r.Some? ==> exists i :: 0 <= i < |os| && os[i].holds && os[i].answer == r.value
                                    && forall j :: 0 <= j < i ==> !os[j].holds
    decreases |os|
  {
    if os == [] then None
    else if os[0].holds then
      assert os[0].holds && os[0].answer == os[0].answer;
      Some(os[0].answer)
    else
      var r := First(os[1..]);
      assert forall i :: 0 < i < |os| ==> os[i] == os[1..][i - 1];
      assert r.Some? ==> exists i :: 0 <= i < |os[1..]| && os[1..][i].holds && os[1..][i].answer == r.value
                                     && forall j :: 0 <= j < i ==> !os[1..][j].holds;
      FirstLater(os, r);
      r
  }

  lemma FirstLater(os: seq<Obstacle>, r: Option<Outcome>)
    requires os != [] && !os[0].holds
    requires r.Some? ==> exists i :: 0 <= i < |os[1..]| && os[1..][i].holds && os[1..][i].answer == r.value
                                     && forall j :: 0 <= j < i ==> !os[1..][j].holds
    ensures r.Some? ==> exists i :: 0 <= i < |os| && os[i].holds && os[i].answer == r.value
                                    && forall j :: 0 <= j < i ==> !os[j].holds
  {
    if r.Some? {
      var i :| 0 <= i < |os[1..]| && os[1..][i].holds && os[1..][i].answer == r.value
               && forall j :: 0 <= j < i ==> !os[1..][j].holds;
      forall j | 0 <= j < i + 1
        ensures !os[j].holds
      {
        if j > 0 {
          assert os[j] == os[1..][j - 1];
        }
      }
      assert os[i + 1].holds && os[i + 1].answer == r.value;
    }
  }

  /** Where nothing stands in the way, the change goes through. */
  function AnswerOf(os: seq<Obstacle>, through: Outcome): Outcome {
    var f := First(os);
    if f.Some? then f.value else through
  }

  lemma FirstOf(o: Obstacle, rest: seq<Obstacle>)
    ensures First([o] + rest) == if o.holds then Some(o.answer) else First(rest)
    ensures First([]) == None
  {
    assert ([o] + rest)[1..] == rest;
  }

  lemma FirstOfTwo(a: Obstacle, b: Obstacle, rest: seq<Obstacle>)
    ensures First([a, b] + rest) == if a.holds then Some(a.answer) else if b.holds then Some(b.answer) else First(rest)
  {
    FirstOf(b, rest);
    FirstOf(a, [b] + rest);
    assert [a, b] + rest == [a] + ([b] + rest);
    hide First;
  }

  lemma FirstOfThree(a: Obstacle, b: Obstacle, c: Obstacle, rest: seq<Obstacle>)
    ensures First([a, b, c] + rest) ==
            if a.holds then Some(a.answer) else if b.holds then Some(b.answer) else if c.holds then Some(c.answer)
            else First(rest)
  {
    FirstOfTwo(b, c, rest);
    FirstOf(a, [b, c] + rest);
    assert [a, b, c] + rest == [a] + ([b, c] + rest);
    hide First;
  }

  lemma {:induction false} FirstOfBoth(a: seq<Obstacle>, b: seq<Obstacle>)
    ensures First(a + b) == if First(a).Some? then First(a) else First(b)
    decreases |a|
  {
    if a == [] {
      assert a + b == b;
    } else {
      assert (a + b)[1..] == a[1..] + b;
      FirstOfBoth(a[1..], b);
    }
  }

  // -------------------------------------------------------------------------
  // A run that stands where the stores stand
  // -------------------------------------------------------------------------

  /** The fault of this action, if it has one, is none or one that the call met. */
  ghost predicate Met(faults: nat -> Fault, a: Action) {
    a.Advance? ==> a.fault == Done || exists i: nat :: a.fault == faults(i)
  }

  /** `trace` leads from `s` to a state where the change of owner `o` is at `m`, the stores
      are as given, and every fault on the way is one the call met. */
  ghost predicate Stands(o: Owner, s: System, faults: nat -> Fault, trace: seq<Action>, m: Mutation,
                         es: seq<Entry>, vault: set<Locator>, config: Option<Configuration>) {
    var t := Exec(s, trace);
    && t.boot == Serving && t.Mutation(o) == m && t.Ledger(o) == es && t.vault == vault && t.config == config
    && o !in t.closed
    && forall a :: a in trace ==> Met(faults, a)
  }

  lemma StandsIs(o: Owner, s: System, faults: nat -> Fault, trace: seq<Action>, m: Mutation,
                 es: seq<Entry>, vault: set<Locator>, config: Option<Configuration>)
    ensures Stands(o, s, faults, trace, m, es, vault, config) <==>
              && (var t := Exec(s, trace);
                  t.boot == Serving && t.Mutation(o) == m && t.Ledger(o) == es && t.vault == vault
                  && t.config == config && o !in t.closed)
              && (forall a :: a in trace ==> Met(faults, a))
  {
    hide Exec;
  }

  lemma StandsAtStart(o: Owner, s: System, faults: nat -> Fault, es: seq<Entry>, vault: set<Locator>,
                      config: Option<Configuration>)
    ensures Stands(o, s, faults, [], Idle, es, vault, config) <==>
              s.boot == Serving && s.Mutation(o) == Idle && s.Ledger(o) == es && s.vault == vault && s.config == config
              && o !in s.closed
  {}

  /** One more action, to a state that differs only in the change's position. */
  lemma MoveOn(o: Owner, s: System, faults: nat -> Fault, trace: seq<Action>, a: Action, x: System, m: Mutation,
               m': Mutation,
               es: seq<Entry>, es': seq<Entry>, vault: set<Locator>, vault': set<Locator>,
               config: Option<Configuration>, config': Option<Configuration>)
    requires Stands(o, s, faults, trace, m, es, vault, config) && Met(faults, a)
    requires Step(Exec(s, trace), a) == x.WithMutation(o, m')
    requires x.boot == Serving && x.Ledger(o) == es' && x.vault == vault' && x.config == config'
             && x.closed == Exec(s, trace).closed
    ensures Stands(o, s, faults, trace + [a], m', es', vault', config')
  {
    RecoveryPass.ExecSnoc(s, trace, a);
    hide Step, Exec, Met;
  }

  lemma AppliedFields(t: System, o: Owner, r: LedgerResult, f: Fault)
    ensures var x := Apply(t, o, r, f);
            && x.boot == t.boot && x.Ledger(o) == Written(t.Ledger(o), r, f) && x.vault == t.vault
            && x.config == t.config && x.closed == t.closed
  {}

  lemma Advances(t: System, o: Owner, l: Locator, f: Fault)
    requires t.boot == Serving
    ensures Step(t, Advance(o, l, f)) == DoAdvance(t, o, l, f)
  {
    StepShape(t, Advance(o, l, f));
    hide Step, DoAdvance;
  }

  lemma MetBy(faults: nat -> Fault, o: Owner, l: Locator, k: nat)
    ensures Met(faults, Advance(o, l, faults(k))) && Met(faults, Advance(o, l, Done))
  {}

  lemma MetOther(faults: nat -> Fault, a: Action)
    requires !a.Advance?
    ensures Met(faults, a)
  {}

  // -------------------------------------------------------------------------
  // The turns of a change, in the order in which it takes them
  // -------------------------------------------------------------------------

  lemma BeginTurn(o: Owner, s: System, faults: nat -> Fault, p: Plan, es: seq<Entry>, vault: set<Locator>,
                  config: Option<Configuration>)
    returns (trace: seq<Action>)
    requires Stands(o, s, faults, [], Idle, es, vault, config) && config.Some?
    requires ValidPlan(p) && PlanOwner(p) == o && PlanRefs(p) !! s.issued
    ensures Stands(o, s, faults, trace, Adopting(config.value, p, ManagedRefs(config.value, o)), es, vault, config)
    ensures trace == [Begin(o, config.value.generation, p)]
  {
    hide *;
    StandsAtStart(o, s, faults, es, vault, config);
    EmptyRun(s);
    var a := Begin(o, config.value.generation, p);
    MetOther(faults, a);
    StepShape(s, a);
    BeginsShape(s, o, p);
    var x := s.(issued := s.issued + PlanRefs(p), begun := s.begun + {p});
    IssuedFields(s, o, x.issued, x.begun);
    MoveOn(o, s, faults, [], a, x, Idle, Adopting(config.value, p, ManagedRefs(config.value, o)), es, es, vault, vault,
           config, config);
    trace := [a];
    assert [] + [a] == trace;
  }

  lemma EmptyRun(s: System)
    ensures Exec(s, []) == s
  {}

  lemma IssuedFields(s: System, o: Owner, issued: set<Locator>, begun: set<Plan>)
    ensures s.(issued := issued, begun := begun).Ledger(o) == s.Ledger(o)
  {}

  lemma BeginsShape(s: System, o: Owner, p: Plan)
    requires s.config.Some? && o !in s.closed && s.Mutation(o) == Idle && ValidPlan(p) && PlanOwner(p) == o
             && PlanRefs(p) !! s.issued
    ensures DoBegin(s, o, s.config.value.generation, p) ==
            s.(issued := s.issued + PlanRefs(p), begun := s.begun + {p})
            .WithMutation(o, Adopting(s.config.value, p, ManagedRefs(s.config.value, o)))
  {
    BeginShape(s, o, s.config.value.generation, p);
    hide DoBegin, ValidPlan, PlanOwner, ManagedRefs;
  }

  lemma AdoptTurn(o: Owner, s: System, faults: nat -> Fault, before: seq<Action>, c: Configuration, p: Plan,
                  adopt: set<Locator>, rest: set<Locator>,
                  l: Locator, k: nat, es: seq<Entry>, vault: set<Locator>, config: Option<Configuration>)
    returns (trace: seq<Action>)
    requires Stands(o, s, faults, before, Adopting(c, p, adopt), es, vault, config) && l in adopt && rest == adopt - {l}
    ensures var r := AdoptCommitted(o, es, l, c.generation);
            Stands(o, s, faults, trace, if Succeeds(r, faults(k)) then Adopting(c, p, rest) else Idle,
                   Written(es, r, faults(k)), vault, config)
    ensures trace == before + [Advance(o, l, faults(k))]
  {
    hide *;
    var t, m, f, r := Exec(s, before), Adopting(c, p, adopt), faults(k), AdoptCommitted(o, es, l, c.generation);
    StandsIs(o, s, faults, before, m, es, vault, config);
    Advances(t, o, l, f);
    AdoptingShape(t, o, l, f);
    AppliedFields(t, o, r, f);
    MetBy(faults, o, l, k);
    MoveOn(o, s, faults, before, Advance(o, l, f), Apply(t, o, r, f), m,
           if Succeeds(r, f) then Adopting(c, p, rest) else Idle,
           es, Written(es, r, f), vault, vault, config, config);
    trace := before + [Advance(o, l, f)];
  }

  lemma AdoptedTurn(o: Owner, s: System, faults: nat -> Fault, before: seq<Action>, c: Configuration, p: Plan,
                    l: Locator,
                    es: seq<Entry>, vault: set<Locator>, config: Option<Configuration>) returns (trace: seq<Action>)
    requires Stands(o, s, faults, before, Adopting(c, p, {}), es, vault, config)
    ensures Stands(o, s, faults, trace,
                   if p.DisableVoice? && c.draft.voice.None? then Idle
                   else Staging(c, p, PlanRefs(p), {}), es, vault, config)
    ensures trace == before + [Advance(o, l, Done)]
  {
    hide *;
    var t, m := Exec(s, before), Adopting(c, p, {});
    var m' := if p.DisableVoice? && c.draft.voice.None? then Idle else Staging(c, p, PlanRefs(p), {});
    StandsIs(o, s, faults, before, m, es, vault, config);
    Advances(t, o, l, Done);
    AdoptsNothing(t, o, c, p, l);
    MetBy(faults, o, l, 0);
    MoveOn(o, s, faults, before, Advance(o, l, Done), t, m, m', es, es, vault, vault, config, config);
    trace := before + [Advance(o, l, Done)];
  }

  lemma AdoptsNothing(t: System, o: Owner, c: Configuration, p: Plan, l: Locator)
    requires t.Mutation(o) == Adopting(c, p, {})
    ensures DoAdvance(t, o, l, Done) == t.WithMutation(o,
                                                       if p.DisableVoice? && c.draft.voice.None? then Idle
                                                       else Staging(c, p, PlanRefs(p), {}))
  {}

  /** The change is given up before its commit. */
  lemma GiveUpTurn(o: Owner, s: System, faults: nat -> Fault, before: seq<Action>, m: Mutation,
                   es: seq<Entry>, vault: set<Locator>, config: Option<Configuration>) returns (trace: seq<Action>)
    requires Stands(o, s, faults, before, m, es, vault, config) && (m.Adopting? || m.Staging? || m.Writing?)
    ensures Stands(o, s, faults, trace, if m.Adopting? then Idle else Abandoning(m.staged, Rest), es, vault, config)
  {
    hide *;
    var t := Exec(s, before);
    StandsIs(o, s, faults, before, m, es, vault, config);
    StepShape(t, GiveUp(o));
    GiveUpShape(t, o);
    MetOther(faults, GiveUp(o));
    MoveOn(o, s, faults, before, GiveUp(o), t, m, if m.Adopting? then Idle else Abandoning(m.staged, Rest), es, es,
           vault, vault, config, config);
    trace := before + [GiveUp(o)];
  }

  lemma ReserveTurn(o: Owner, s: System, faults: nat -> Fault, before: seq<Action>, c: Configuration, p: Plan,
                    todo: set<Locator>, staged: set<Locator>,
                    l: Locator, k: nat, rest: set<Locator>, staged': set<Locator>, es: seq<Entry>, vault: set<Locator>,
                    config: Option<Configuration>)
    returns (trace: seq<Action>)
    requires Stands(o, s, faults, before, Staging(c, p, todo, staged), es, vault, config)
    requires l in todo && rest == todo - {l} && staged' == staged + {l}
    ensures var r := Reserve(o, es, l, c.generation);
            Stands(o, s, faults, trace,
                   if Succeeds(r, faults(k)) then Writing(c, p, l, rest, staged') else Abandoning(staged, Rest),
                   Written(es, r, faults(k)), vault, config)
    ensures trace == before + [Advance(o, l, faults(k))]
  {
    hide *;
    var t, m, f, r := Exec(s, before), Staging(c, p, todo, staged), faults(k), Reserve(o, es, l, c.generation);
    StandsIs(o, s, faults, before, m, es, vault, config);
    Advances(t, o, l, f);
    StagingShape(t, o, l, f);
    AppliedFields(t, o, r, f);
    MetBy(faults, o, l, k);
    assert todo != {};
    MoveOn(o, s, faults, before, Advance(o, l, f), Apply(t, o, r, f), m,
           if Succeeds(r, f) then Writing(c, p, l, rest, staged')
           else Abandoning(staged, Rest), es, Written(es, r, f), vault, vault, config, config);
    trace := before + [Advance(o, l, f)];
  }

  lemma WriteTurn(o: Owner, s: System, faults: nat -> Fault, before: seq<Action>, c: Configuration, p: Plan,
                  l: Locator, todo: set<Locator>, staged: set<Locator>,
                  k: nat, es: seq<Entry>, vault: set<Locator>, config: Option<Configuration>)
    returns (trace: seq<Action>)
    requires Stands(o, s, faults, before, Writing(c, p, l, todo, staged), es, vault, config)
    ensures Stands(o, s, faults, trace,
                   if faults(k) == Done then Staging(c, p, todo, staged) else Abandoning(staged, Rest),
                   es, if faults(k) == Refused then vault else vault + {l}, config)
    ensures trace == before + [Advance(o, l, faults(k))]
  {
    hide *;
    var t, m, f := Exec(s, before), Writing(c, p, l, todo, staged), faults(k);
    StandsIs(o, s, faults, before, m, es, vault, config);
    Advances(t, o, l, f);
    WritingShape(t, o, l, f);
    StoredFields(t, o, l);
    MetBy(faults, o, l, k);
    var x := if f == Refused then t else t.(vault := t.vault + {l});
    MoveOn(o, s, faults, before, Advance(o, l, f), x, m,
           if f == Done then Staging(c, p, todo, staged) else Abandoning(staged, Rest),
           es, es, vault, x.vault, config, config);
    trace := before + [Advance(o, l, f)];
  }

  lemma StoredFields(t: System, o: Owner, l: Locator)
    ensures t.(vault := t.vault + {l}).Ledger(o) == t.Ledger(o)
  {}

  /** The configuration after the commit call. */
  function CommittedConfig(config: Option<Configuration>, c: Configuration, p: Plan, f: Fault): Option<Configuration> {
    var r := CommitPlan(config, c.generation, p);
    if r.Committed? && f != Refused then Some(r.configuration) else config
  }

  lemma CommitTurn(o: Owner, s: System, faults: nat -> Fault, before: seq<Action>, c: Configuration, p: Plan,
                   staged: set<Locator>, mark: set<Locator>,
                   l: Locator, k: nat, es: seq<Entry>, vault: set<Locator>, config: Option<Configuration>)
    returns (trace: seq<Action>)
    requires Stands(o, s, faults, before, Staging(c, p, {}, staged), es, vault, config) && mark == PlanRefs(p)
    ensures var r := CommitPlan(config, c.generation, p);
            Stands(o, s, faults, trace,
                   if r.Committed? && faults(k) == Done then Marking(c, p, r.configuration.generation, mark, {})
                   else Abandoning(staged, Rest),
                   es, vault, CommittedConfig(config, c, p, faults(k)))
    ensures trace == before + [Advance(o, l, faults(k))]
  {
    hide *;
    var t, m, f, r := Exec(s, before), Staging(c, p, {}, staged), faults(k), CommitPlan(config, c.generation, p);
    StandsIs(o, s, faults, before, m, es, vault, config);
    Advances(t, o, l, f);
    StagingShape(t, o, l, f);
    CommitOutcome(t, o, m, f);
    CommittedIs(config, c, p, f);
    MetBy(faults, o, l, k);
    var m' := if r.Committed? && f == Done then Marking(c, p, r.configuration.generation, mark, {})
        else Abandoning(staged, Rest);
    if !r.Committed? || f == Refused {
      MoveOn(o, s, faults, before, Advance(o, l, f), t, m, m', es, es, vault, vault, config, config);
    } else {
      LandedFields(t, o, r.configuration, m');
      MoveOn(o, s, faults, before, Advance(o, l, f),
             t.(config := Some(r.configuration), held := t.held[r.configuration.generation := r.configuration]),
             m, m', es, es, vault, vault, config, Some(r.configuration));
    }
    trace := before + [Advance(o, l, f)];
  }

  lemma LandedFields(t: System, o: Owner, n: Configuration, m: Mutation)
    ensures var x := t.(config := Some(n), held := t.held[n.generation := n]);
            Landed(t, n, o, m) == x.WithMutation(o, m) && x.Ledger(o) == t.Ledger(o)
  {}

  lemma CommittedIs(config: Option<Configuration>, c: Configuration, p: Plan, f: Fault)
    ensures var r := CommitPlan(config, c.generation, p);
            CommittedConfig(config, c, p, f) == if r.Committed? && f != Refused then Some(r.configuration) else config
  {}

  /** Recording the commit; the model settings remember what they could not record. */
  lemma MarkTurn(o: Owner, s: System, faults: nat -> Fault, before: seq<Action>, c: Configuration, p: Plan, g: int,
                 mark: set<Locator>, rest: set<Locator>,
                 l: Locator, k: nat, fallback: set<Locator>, es: seq<Entry>, vault: set<Locator>,
                 config: Option<Configuration>) returns (trace: seq<Action>)
    requires Stands(o, s, faults, before, Marking(c, p, g, mark, {}), es, vault, config) && l in mark
             && rest == mark - {l}
    requires fallback == if Succeeds(MarkCommitted(o, es, l, g - 1, g), faults(k)) || o == VoiceOwner then {} else {l}
    ensures Stands(o, s, faults, trace, Marking(c, p, g, rest, fallback),
                   Written(es, MarkCommitted(o, es, l, g - 1, g), faults(k)), vault, config)
    ensures trace == before + [Advance(o, l, faults(k))]
  {
    hide *;
    var t, m, f, r := Exec(s, before), Marking(c, p, g, mark, {}), faults(k), MarkCommitted(o, es, l, g - 1, g);
    StandsIs(o, s, faults, before, m, es, vault, config);
    Advances(t, o, l, f);
    MarksIt(t, o, c, p, g, mark, rest, l, f);
    AppliedFields(t, o, r, f);
    MetBy(faults, o, l, k);
    MoveOn(o, s, faults, before, Advance(o, l, f), Apply(t, o, r, f), m, Marking(c, p, g, rest, fallback), es,
           Written(es, r, f), vault, vault, config, config);
    trace := before + [Advance(o, l, f)];
  }

  lemma MarksIt(t: System, o: Owner, c: Configuration, p: Plan, g: int, mark: set<Locator>, rest: set<Locator>,
                l: Locator, f: Fault)
    requires t.Mutation(o) == Marking(c, p, g, mark, {}) && l in mark && rest == mark - {l}
    ensures var r := MarkCommitted(o, t.Ledger(o), l, g - 1, g);
            DoAdvance(t, o, l, f) == Apply(t, o, r, f).WithMutation(o,
                                                                    Marking(c, p, g, rest,
                                                                            if Succeeds(r, f) || o == VoiceOwner
                                                                            then {} else {l}))
  {
    assert {} + {l} == {l};
    hide MarkCommitted, AdoptCommitted, Apply, Succeeds;
  }

  lemma FallbackTurn(o: Owner, s: System, faults: nat -> Fault, before: seq<Action>, c: Configuration, p: Plan, g: int,
                     l: Locator, k: nat,
                     es: seq<Entry>, vault: set<Locator>, config: Option<Configuration>) returns (trace: seq<Action>)
    requires Stands(o, s, faults, before, Marking(c, p, g, {}, {l}), es, vault, config)
    ensures Stands(o, s, faults, trace, Marking(c, p, g, {}, {}), Written(es, AdoptCommitted(o, es, l, g), faults(k)),
                   vault, config)
    ensures trace == before + [Advance(o, l, faults(k))]
  {
    hide *;
    var t, m, f, r := Exec(s, before), Marking(c, p, g, {}, {l}), faults(k), AdoptCommitted(o, es, l, g);
    StandsIs(o, s, faults, before, m, es, vault, config);
    Advances(t, o, l, f);
    FallsBack(t, o, c, p, g, l, f);
    AppliedFields(t, o, r, f);
    MetBy(faults, o, l, k);
    MoveOn(o, s, faults, before, Advance(o, l, f), Apply(t, o, r, f), m, Marking(c, p, g, {}, {}), es,
           Written(es, r, f), vault, vault, config, config);
    trace := before + [Advance(o, l, f)];
  }

  lemma FallsBack(t: System, o: Owner, c: Configuration, p: Plan, g: int, l: Locator, f: Fault)
    requires t.Mutation(o) == Marking(c, p, g, {}, {l})
    ensures DoAdvance(t, o, l, f) == Apply(t, o, AdoptCommitted(o, t.Ledger(o), l, g), f).WithMutation(o,
                                                                                                       Marking(c, p, g,
                                                                                                               {}, {}))
  {
    assert {l} - {l} == {};
    hide MarkCommitted, AdoptCommitted, Apply;
  }

  /** The runtime swap, or its omission when the product shuts down or the swap fails. */
  lemma SwapTurn(o: Owner, s: System, faults: nat -> Fault, before: seq<Action>, c: Configuration, p: Plan, g: int,
                 up: bool,
                 es: seq<Entry>, vault: set<Locator>, config: Option<Configuration>) returns (trace: seq<Action>)
    requires Stands(o, s, faults, before, Marking(c, p, g, {}, {}), es, vault, config)
    ensures Stands(o, s, faults, trace, Idle, es, vault, config)
  {
    hide *;
    var t, a := Exec(s, before), Mount(o, up);
    StandsIs(o, s, faults, before, Marking(c, p, g, {}, {}), es, vault, config);
    StepShape(t, a);
    MountFields(t, o, up);
    MetOther(faults, a);
    var u := DoMount(t, o, up);
    SameMutation(u, o);
    MoveOn(o, s, faults, before, a, u, Marking(c, p, g, {}, {}), Idle, es, es, vault, vault, config, config);
    trace := before + [a];
  }

  /** A retry mounts the configured credentials again. */
  lemma RemountTurn(o: Owner, s: System, faults: nat -> Fault, before: seq<Action>, idle: bool,
                    es: seq<Entry>, vault: set<Locator>, config: Option<Configuration>) returns (trace: seq<Action>)
    requires Stands(o, s, faults, before, Idle, es, vault, config)
    ensures Stands(o, s, faults, trace, Idle, es, vault, config) && trace == before + [Remount(o, idle)]
  {
    hide *;
    var t, a := Exec(s, before), Remount(o, idle);
    StandsIs(o, s, faults, before, Idle, es, vault, config);
    StepShape(t, a);
    RemountFields(t, o, idle);
    MetOther(faults, a);
    var u := DoRemount(t, o, idle);
    SameMutation(u, o);
    MoveOn(o, s, faults, before, a, u, Idle, Idle, es, es, vault, vault, config, config);
    trace := before + [a];
  }

  lemma RemountFields(t: System, o: Owner, idle: bool)
    ensures var u := DoRemount(t, o, idle);
            && u.Ledger(o) == t.Ledger(o) && u.vault == t.vault && u.config == t.config && u.boot == t.boot
            && u.closed == t.closed
            && u.Mutation(o) == t.Mutation(o)
  {}

  lemma SameMutation(u: System, o: Owner)
    ensures u == u.WithMutation(o, u.Mutation(o))
  {}

  lemma MountFields(t: System, o: Owner, up: bool)
    requires t.Mutation(o).Marking? && t.Mutation(o).mark == {} && t.Mutation(o).fallback == {}
    ensures var u := DoMount(t, o, up);
            && u.Ledger(o) == t.Ledger(o) && u.vault == t.vault && u.config == t.config && u.boot == t.boot
            && u.closed == t.closed
            && u.Mutation(o) == Idle
  {}

  lemma AbandonTurn(o: Owner, s: System, faults: nat -> Fault, before: seq<Action>, abandon: set<Locator>,
                    rest: set<Locator>, l: Locator, k: nat,
                    es: seq<Entry>, vault: set<Locator>, config: Option<Configuration>) returns (trace: seq<Action>)
    requires Stands(o, s, faults, before, Abandoning(abandon, Rest), es, vault, config) && l in abandon
             && rest == abandon - {l}
    ensures var r := AbandonStaged(o, es, l);
            Stands(o, s, faults, trace, Abandoning(rest, if Succeeds(r, faults(k)) then Due(l) else Rest),
                   Written(es, r, faults(k)), vault, config)
  {
    hide *;
    var t, m, f, r := Exec(s, before), Abandoning(abandon, Rest), faults(k), AbandonStaged(o, es, l);
    StandsIs(o, s, faults, before, m, es, vault, config);
    Advances(t, o, l, f);
    AbandoningShape(t, o, l, f);
    AppliedFields(t, o, r, f);
    MetBy(faults, o, l, k);
    assert abandon != {};
    MoveOn(o, s, faults, before, Advance(o, l, f), Apply(t, o, r, f), m,
           Abandoning(rest, if Succeeds(r, f) then Due(l) else Rest),
           es, Written(es, r, f), vault, vault, config, config);
    trace := before + [Advance(o, l, f)];
  }

  lemma CleanupFields(t: System, o: Owner, c: Cleanup, f: Fault)
    ensures var q, es := CleanupStep(t, o, c, f), t.Ledger(o);
            && q.0.boot == t.boot && q.0.config == t.config && q.0.closed == t.closed
            && q.0.Ledger(o) == (match c case Due(l) => Written(es, MarkCleanupAttempt(o, es, l), f)
                                 case Deleted(l) => Written(es, Acknowledge(o, es, l), f) case _ => es)
            && q.0.vault == (if c.Attempted? && f != Refused then t.vault - {c.l} else t.vault)
            && q.1 == (match c case Due(l) => if Succeeds(MarkCleanupAttempt(o, es, l), f) then Attempted(l) else Rest
                       case Attempted(l) => if f == Done then Deleted(l) else Rest case _ => Rest)
  {
    hide MarkCleanupAttempt, Acknowledge;
  }

  lemma CleanupTurn(o: Owner, s: System, faults: nat -> Fault, before: seq<Action>, rest: set<Locator>, c: Cleanup,
                    l: Locator, k: nat,
                    es: seq<Entry>, vault: set<Locator>, config: Option<Configuration>) returns (trace: seq<Action>)
    requires Stands(o, s, faults, before, Abandoning(rest, c), es, vault, config)
             && (c == Due(l) || c == Attempted(l) || c == Deleted(l))
    ensures Stands(o, s, faults, trace,
                   Abandoning(rest,
                              match c case Due(_) => if Succeeds(MarkCleanupAttempt(o, es, l), faults(k))
                              then Attempted(l) else Rest
                                    case Attempted(_) => if faults(k) == Done then Deleted(l) else Rest case _ => Rest),
                   match c case Due(_) => Written(es, MarkCleanupAttempt(o, es, l), faults(k))
                   case Deleted(_) => Written(es, Acknowledge(o, es, l), faults(k)) case _ => es,
                   if c.Attempted? && faults(k) != Refused then vault - {l} else vault, config)
  {
    hide *;
    var t, f := Exec(s, before), faults(k);
    StandsIs(o, s, faults, before, Abandoning(rest, c), es, vault, config);
    Advances(t, o, l, f);
    AbandoningShape(t, o, l, f);
    CleanupFields(t, o, c, f);
    MetBy(faults, o, l, k);
    var q := CleanupStep(t, o, c, f);
    MoveOn(o, s, faults, before, Advance(o, l, f), q.0, Abandoning(rest, c), Abandoning(rest, q.1), es, q.0.Ledger(o),
           vault, q.0.vault, config, config);
    trace := before + [Advance(o, l, f)];
  }

  lemma SettleTurn(o: Owner, s: System, faults: nat -> Fault, before: seq<Action>, l: Locator, es: seq<Entry>,
                   vault: set<Locator>, config: Option<Configuration>)
    returns (trace: seq<Action>)
    requires Stands(o, s, faults, before, Abandoning({}, Rest), es, vault, config)
    ensures Stands(o, s, faults, trace, Idle, es, vault, config)
  {
    hide *;
    var t := Exec(s, before);
    StandsIs(o, s, faults, before, Abandoning({}, Rest), es, vault, config);
    Advances(t, o, l, Done);
    AbandoningShape(t, o, l, Done);
    MetBy(faults, o, l, 0);
    MoveOn(o, s, faults, before, Advance(o, l, Done), t, Abandoning({}, Rest), Idle, es, es, vault, vault, config,
           config);
    trace := before + [Advance(o, l, Done)];
  }

  // -------------------------------------------------------------------------
  // Calls without a lost write
  // -------------------------------------------------------------------------

  lemma {:induction false} CarefulIsSound(s: System, trace: seq<Action>)
    requires forall a :: a in trace && a.Advance? ==> a.fault != Lost
    ensures SoundRun(s, trace, false)
    decreases |trace|
  {
    hide Step;
    if trace != [] {
      CarefulIsSound(Step(s, trace[0]), trace[1..]);
    }
  }

  /** Then the call is a sound run, and every secret of its owner in the vault is accounted for. */
  lemma CarefulCallIsSound(o: Owner, s: System, faults: nat -> Fault, trace: seq<Action>, es: seq<Entry>,
                           vault: set<Locator>, config: Option<Configuration>)
    requires Stands(o, s, faults, trace, Idle, es, vault, config) && forall i: nat :: faults(i) != Lost
    ensures SoundRun(s, trace, false)
    ensures Inv(s, false) ==>
            forall l :: l in vault && l.managed && l.Owner() == o ==>
            (config.Some? && l in AllRefs(config.value)) || l in View(es)
  {
    assert forall a :: a in trace && a.Advance? ==> Met(faults, a) && a.fault != Lost;
    CarefulIsSound(s, trace);
    if Inv(s, false) {
      RunKeeps(s, false, trace);
      PartFacts(Exec(s, trace), false, o);
      VaultFacts(Exec(s, trace));
    }
    hide Inv, Exec, SoundRun, View, VaultOk, RuntimesOk, MutationOk, LedgerOk, ConfigOk, BootOk, Met;
  }

  // -------------------------------------------------------------------------
  // Calls without any fault: what they leave in the ledger
  // -------------------------------------------------------------------------

  ghost predicate NoFault(faults: nat -> Fault) {
    forall i: nat :: faults(i) == Done
  }

  lemma FaultIs(faults: nat -> Fault, k: nat, r: LedgerResult)
    requires NoFault(faults)
    ensures faults(k) == Done && (Succeeds(r, faults(k)) <==> r.Ok?)
    ensures forall es: seq<Entry> :: Written(es, r, faults(k)) == if r.Ok? then r.entries else es
  {}

  function StagedEntry(l: Locator, g: int): Entry {
    Entry(l, Staged, VaultWritePending, g, None, 0)
  }

  function CommittedEntry(l: Locator, g: int): Entry {
    Entry(l, Active, ConfigurationCommitted, g, Some(g + 1), 0)
  }

  /** A ledger on its way through a change that began with `es0` at generation `g`: the
      locators of `staged` are reserved, those of `marked` recorded as committed, and
      nothing else is different. */
  ghost predicate Midway(es0: seq<Entry>, es: seq<Entry>, g: int, staged: set<Locator>, marked: set<Locator>) {
    && Unique(es) && staged !! marked
    && (forall x :: x !in staged && x !in marked ==> SameAt(View(es0), View(es), x))
    && (forall l :: l in staged ==> l in View(es) && View(es)[l] == StagedEntry(l, g))
    && (forall l :: l in marked ==> l in View(es) && View(es)[l] == CommittedEntry(l, g))
    && (forall e :: e in es && e.committedGeneration.Some? && e.committedGeneration.value > g ==> e.ref in marked)
  }

  /** No ledger entry is newer than generation `g`. */
  ghost predicate UpTo(es: seq<Entry>, g: int) {
    Unique(es) && forall e :: e in es && e.committedGeneration.Some? ==> e.committedGeneration.value <= g
  }

  /** Locators that the ledger has never heard of, at most one per track. */
  ghost predicate NewTo(o: Owner, es: seq<Entry>, refs: set<Locator>) {
    && (forall l :: l in refs ==> l !in View(es) && ValidReference(o, l))
    && (forall l, x :: l in refs && x in refs && l.Track() == x.Track() ==> l == x)
  }

  lemma MidwayStart(es: seq<Entry>, g: int)
    requires UpTo(es, g)
    ensures Midway(es, es, g, {}, {})
  {}

  lemma MidwayIs(es0: seq<Entry>, es: seq<Entry>, g: int, staged: set<Locator>, marked: set<Locator>)
    requires Midway(es0, es, g, staged, marked)
    ensures Unique(es)
    ensures forall x :: x !in staged && x !in marked ==> SameAt(View(es0), View(es), x)
    ensures forall l :: l in staged ==> l in View(es) && View(es)[l] == StagedEntry(l, g)
    ensures forall l :: l in marked ==> l in View(es) && View(es)[l] == CommittedEntry(l, g)
  {}

  lemma SameMoves(v: map<Locator, Entry>, v1: map<Locator, Entry>, v2: map<Locator, Entry>, x: Locator)
    requires SameAt(v, v1, x) && SameAt(v1, v2, x)
    ensures SameAt(v, v2, x)
  {}

  /** One entry changed: where it belongs now decides the rest. */
  lemma MidwayMoves(es0: seq<Entry>, es: seq<Entry>, es': seq<Entry>, g: int, staged: set<Locator>,
                    marked: set<Locator>,
                    staged': set<Locator>, marked': set<Locator>, l: Locator)
    requires Midway(es0, es, g, staged, marked) && Unique(es') && AgreeExcept(View(es), View(es'), l)
    requires staged' !! marked'
             && (forall x :: x != l ==> (x in staged' <==> x in staged) && (x in marked' <==> x in marked))
    requires l in staged' ==> l in View(es') && View(es')[l] == StagedEntry(l, g)
    requires l in marked' ==> l in View(es') && View(es')[l] == CommittedEntry(l, g)
    requires l !in staged' && l !in marked' ==> l !in View(es0) && l !in View(es')
    ensures Midway(es0, es', g, staged', marked')
  {
    MidwayIs(es0, es, g, staged, marked);
    hide View, Find, Unique, StagedEntry, CommittedEntry;
    forall x
      ensures x !in staged' && x !in marked' ==> SameAt(View(es0), View(es'), x)
      ensures x in staged' ==> x in View(es') && View(es')[x] == StagedEntry(x, g)
      ensures x in marked' ==> x in View(es') && View(es')[x] == CommittedEntry(x, g)
    {
      if x != l {
        assert SameAt(View(es), View(es'), x);
        if x !in staged' && x !in marked' {
          SameMoves(View(es0), View(es), View(es'), x);
        }
      }
    }
    GenerationsMove(es0, es, es', g, staged, marked, staged', marked', l);
  }

  lemma GenerationsMove(es0: seq<Entry>, es: seq<Entry>, es': seq<Entry>, g: int, staged: set<Locator>,
                        marked: set<Locator>,
                        staged': set<Locator>, marked': set<Locator>, l: Locator)
    requires Midway(es0, es, g, staged, marked) && Unique(es') && AgreeExcept(View(es), View(es'), l)
    requires forall x :: x != l && x in marked ==> x in marked'
    requires l in staged' ==> l in View(es') && View(es')[l] == StagedEntry(l, g)
    requires l !in staged' && l !in marked' ==> l !in View(es')
    ensures forall e :: e in es' && e.committedGeneration.Some? && e.committedGeneration.value > g ==> e.ref in marked'
  {
    RecoveryPass.ViewKeys(es);
    ViewIsLedger(es');
    hide View, Find, Unique;
    forall e | e in es' && e.committedGeneration.Some? && e.committedGeneration.value > g
      ensures e.ref in marked'
    {
      if e.ref != l {
        assert SameAt(View(es), View(es'), e.ref);
      }
    }
  }

  lemma ReserveMoves(o: Owner, es0: seq<Entry>, es: seq<Entry>, g: int, staged: set<Locator>, l: Locator)
    requires Midway(es0, es, g, staged, {}) && l !in staged && l !in View(es0) && ValidReference(o, l) && g >= 0
    ensures var r := Reserve(o, es, l, g);
            && (r.Ok? <==> |es| < MAX_ENTRIES)
            && (r.Ok? ==> Midway(es0, r.entries, g, staged + {l}, {}) && |r.entries| == |es| + 1)
  {
    var r := Reserve(o, es, l, g);
    assert SameAt(View(es0), View(es), l);
    if r.Ok? {
      ReserveEffect(o, es, l, g);
      hide *;
      TouchesIs(es, r.entries, l);
      StagedIs(l, g);
      MidwayMoves(es0, es, r.entries, g, staged, {}, staged + {l}, {}, l);
    }
  }

  lemma TouchesIs(es: seq<Entry>, es': seq<Entry>, l: Locator)
    requires Touches(es, es', l)
    ensures Unique(es') && AgreeExcept(View(es), View(es'), l)
  {}

  lemma StagedIs(l: Locator, g: int)
    ensures StagedEntry(l, g) == Entry(l, Staged, VaultWritePending, g, None, 0)
    ensures CommittedEntry(l, g) == Entry(l, Active, ConfigurationCommitted, g, Some(g + 1), 0)
  {}

  lemma MarkMoves(o: Owner, es0: seq<Entry>, es: seq<Entry>, g: int, staged: set<Locator>, marked: set<Locator>,
                  l: Locator)
    requires Midway(es0, es, g, staged, marked) && l in staged && ValidReference(o, l) && g >= 0
    requires forall x :: x in marked ==> x.Track() != l.Track()
    ensures var r := MarkCommitted(o, es, l, g, g + 1);
            r.Ok? && Midway(es0, r.entries, g, staged - {l}, marked + {l})
  {
    MarkSucceeds(o, es0, es, g, staged, marked, l);
    MidwayIs(es0, es, g, staged, marked);
    MarkCommittedEffect(o, es, l, g, g + 1);
    StagedIs(l, g);
    var es' := MarkCommitted(o, es, l, g, g + 1).entries;
    TouchesIs(es, es', l);
    AreDisjoint(es0, es, g, staged, marked);
    hide *;
    MidwayMoves(es0, es, es', g, staged, marked, staged - {l}, marked + {l}, l);
  }

  lemma AreDisjoint(es0: seq<Entry>, es: seq<Entry>, g: int, staged: set<Locator>, marked: set<Locator>)
    requires Midway(es0, es, g, staged, marked)
    ensures staged !! marked
  {}

  lemma MarkSucceeds(o: Owner, es0: seq<Entry>, es: seq<Entry>, g: int, staged: set<Locator>, marked: set<Locator>,
                     l: Locator)
    requires Midway(es0, es, g, staged, marked) && l in staged && ValidReference(o, l) && g >= 0
    requires forall x :: x in marked ==> x.Track() != l.Track()
    ensures MarkCommitted(o, es, l, g, g + 1).Ok?
  {
    assert es[Find(es, l)] == StagedEntry(l, g);
    assert forall i :: 0 <= i < |es| ==> es[i] in es;
  }

  /** A staged candidate, ready to be abandoned. */
  ghost predicate Abandonable(o: Owner, es: seq<Entry>, l: Locator) {
    Unique(es) && l in View(es) && View(es)[l].phase == Staged && View(es)[l].attempts < MAX_ATTEMPTS
    && ValidReference(o, l)
  }

  lemma StagedIsAbandonable(o: Owner, es0: seq<Entry>, es: seq<Entry>, g: int, staged: set<Locator>,
                            marked: set<Locator>, l: Locator)
    requires Midway(es0, es, g, staged, marked) && l in staged && ValidReference(o, l)
    ensures Abandonable(o, es, l)
  {}

  /** Abandoning, deleting and acknowledging it. */
  lemma AbandonCleans(o: Owner, es: seq<Entry>, l: Locator)
    requires Abandonable(o, es, l)
    ensures var r1 := AbandonStaged(o, es, l);
            r1.Ok? &&
            var r2 := MarkCleanupAttempt(o, r1.entries, l);
            r2.Ok? &&
            var r3 := Acknowledge(o, r2.entries, l);
            r3.Ok? && RecoveryPass.Cleaned(es, r3.entries, l) && Unique(r3.entries)
  {
    AbandonSucceeds(o, es, l);
    AbandonStagedEffect(o, es, l);
    hide View, Find, AbandonStaged, MarkCleanupAttempt, Acknowledge, Unique, ValidReference, Touches;
    var es1 := AbandonStaged(o, es, l).entries;
    RecoveryPass.TouchedUnique(es, es1, l);
    RecoveryPass.CountsAttempt(o, es1, l);
    var es2 := MarkCleanupAttempt(o, es1, l).entries;
    RecoveryPass.TouchedUnique(es1, es2, l);
    RecoveryPass.Acknowledges(o, es2, l);
    RecoveryPass.TouchedUnique(es2, Acknowledge(o, es2, l).entries, l);
    TouchedThrice(es, es1, es2, Acknowledge(o, es2, l).entries, l);
  }

  lemma TouchedThrice(es: seq<Entry>, es1: seq<Entry>, es2: seq<Entry>, es3: seq<Entry>, l: Locator)
    requires Touches(es, es1, l) && Touches(es1, es2, l) && Touches(es2, es3, l) && l !in View(es3)
    ensures RecoveryPass.Cleaned(es, es3, l)
  {
    RecoveryPass.AgreesElsewhere(es, es1, l);
    RecoveryPass.AgreesElsewhere(es1, es2, l);
    RecoveryPass.AgreesElsewhere(es2, es3, l);
    hide View, Touches;
  }

  lemma AbandonSucceeds(o: Owner, es: seq<Entry>, l: Locator)
    requires Abandonable(o, es, l)
    ensures AbandonStaged(o, es, l).Ok?
  {}

  lemma AbandonMoves(es0: seq<Entry>, es: seq<Entry>, es': seq<Entry>, g: int, staged: set<Locator>, l: Locator)
    requires Midway(es0, es, g, staged, {}) && l in staged && l !in View(es0) && RecoveryPass.Cleaned(es, es', l)
             && Unique(es')
    ensures Midway(es0, es', g, staged - {l}, {})
  {
    hide View, Find, Midway;
    MidwayMoves(es0, es, es', g, staged, {}, staged - {l}, {}, l);
  }

  /** One step of the failure path: a staged credential is pending, deleted and
      acknowledged, as far as each of these works. */
  method AbandonOne(ledger: LedgerStore, vault: Vault, l: Locator, faults: nat -> Fault, n: nat,
                    ghost abandon: set<Locator>, ghost rest: set<Locator>,
                    ghost config: Option<Configuration>, ghost s: System, ghost before: seq<Action>)
    returns (k: nat, ghost trace: seq<Action>)
    requires Stands(ledger.owner, s, faults, before, Abandoning(abandon, Rest), ledger.entries, vault.secrets, config)
    requires l in abandon && rest == abandon - {l}
    modifies ledger, vault
    ensures Stands(ledger.owner, s, faults, trace, Abandoning(rest, Rest), ledger.entries, vault.secrets, config)
    ensures vault.secrets == old(vault.secrets) || vault.secrets == old(vault.secrets) - {l}
    ensures NoFault(faults) && Abandonable(ledger.owner, old(ledger.entries), l) ==>
              RecoveryPass.Cleaned(old(ledger.entries), ledger.entries, l) && Unique(ledger.entries)
              && vault.secrets == old(vault.secrets) - {l}
  {
    hide *;
    ghost var o, es, vs := ledger.owner, ledger.entries, vault.secrets;
    if NoFault(faults) && Abandonable(o, es, l) {
      AbandonCleans(o, es, l);
      var r1 := AbandonStaged(o, es, l);
      var r2 := MarkCleanupAttempt(o, r1.entries, l);
      FaultIs(faults, n, r1);
      FaultIs(faults, n + 1, r2);
      FaultIs(faults, n + 2, r2);
      FaultIs(faults, n + 3, Acknowledge(o, r2.entries, l));
    }
    trace := AbandonTurn(o, s, faults, before, abandon, rest, l, n, es, vs, config);
    k := n + 1;
    var ok := ledger.AbandonEntry(l, faults(n));
    if !ok {
      return;
    }
    es := ledger.entries;
    trace := CleanupTurn(o, s, faults, trace, rest, Due(l), l, k, es, vs, config);
    k := k + 1;
    ok := ledger.CountAttempt(l, faults(n + 1));
    if !ok {
      return;
    }
    es := ledger.entries;
    trace := CleanupTurn(o, s, faults, trace, rest, Attempted(l), l, k, es, vs, config);
    k := k + 1;
    ok := vault.Delete(l, faults(n + 2));
    if !ok {
      return;
    }
    vs := vault.secrets;
    trace := CleanupTurn(o, s, faults, trace, rest, Deleted(l), l, k, es, vs, config);
    k := k + 1;
    ok := ledger.AcknowledgeEntry(l, faults(n + 3));
  }

  // -------------------------------------------------------------------------
  // The whole call
  // -------------------------------------------------------------------------

  /** What a change makes of its candidates `refs`: recorded under the generation it
      committed with their secrets stored, or no trace of them. Entries of other locators
      than `own`, which the change may adopt first, stay as they were. */
  ghost predicate Leaves(es0: seq<Entry>, es: seq<Entry>, vs0: set<Locator>, vs: set<Locator>, refs: set<Locator>,
                         committed: Option<int>, own: set<Locator>) {
    && (forall x :: x !in refs && x !in own ==> SameAt(View(es0), View(es), x))
    && match committed
       case Some(g) => (forall l :: l in refs ==> l in View(es) && View(es)[l] == CommittedEntry(l, g - 1))
       && vs == vs0 + refs
       case None => (forall l :: l in refs ==> l !in View(es)) && vs == vs0
  }

  lemma CommittedLeaves(es0: seq<Entry>, es: seq<Entry>, vs0: set<Locator>, vs: set<Locator>, g: int,
                        refs: set<Locator>)
    requires Midway(es0, es, g, {}, refs) && vs == vs0 + refs
    ensures Leaves(es0, es, vs0, vs, refs, Some(g + 1), {})
  {
    hide View, Find;
  }

  lemma AbandonedLeaves(o: Owner, es0: seq<Entry>, es: seq<Entry>, vs: set<Locator>, g: int, refs: set<Locator>)
    requires Midway(es0, es, g, {}, {}) && NewTo(o, es0, refs)
    ensures Leaves(es0, es, vs, vs, refs, None, {})
  {
    hide View, Find;
    assert forall l :: l in refs ==> SameAt(View(es0), View(es), l);
  }

  lemma UntouchedLeaves(o: Owner, es: seq<Entry>, vs: set<Locator>, refs: set<Locator>, own: set<Locator>)
    requires NewTo(o, es, refs)
    ensures Leaves(es, es, vs, vs, refs, None, own)
  {}

  // Adopting what the configuration names comes first.

  ghost predicate AdoptedOver(es0: seq<Entry>, es: seq<Entry>, g: int, own: set<Locator>) {
    UpTo(es, g) && forall x :: x !in own ==> SameAt(View(es0), View(es), x)
  }

  lemma AdoptedFromItself(es: seq<Entry>, g: int, own: set<Locator>)
    requires UpTo(es, g)
    ensures AdoptedOver(es, es, g, own)
  {}

  lemma AdoptMoves(o: Owner, es0: seq<Entry>, es: seq<Entry>, g: int, own: set<Locator>, l: Locator, f: Fault)
    requires AdoptedOver(es0, es, g, own) && l in own
    ensures AdoptedOver(es0, Written(es, AdoptCommitted(o, es, l, g), f), g, own)
  {
    var r := AdoptCommitted(o, es, l, g);
    if r.Ok? {
      AdoptCommittedEffect(o, es, l, g);
      AdoptGenerations(o, es, l, g);
      hide View, Find, AdoptCommitted;
      forall x | x !in own
        ensures SameAt(View(es0), View(r.entries), x)
      {
        assert SameAt(View(es0), View(es), x) && SameAt(View(es), View(r.entries), x);
      }
    }
  }

  lemma AdoptGenerations(o: Owner, es: seq<Entry>, own: Locator, g: int)
    requires forall e :: e in es && e.committedGeneration.Some? ==> e.committedGeneration.value <= g
    ensures var r := AdoptCommitted(o, es, own, g);
            r.Ok? ==> forall e :: e in r.entries && e.committedGeneration.Some? ==> e.committedGeneration.value <= g
  {}

  lemma AdoptedKeepsNew(o: Owner, es0: seq<Entry>, es: seq<Entry>, g: int, own: set<Locator>, refs: set<Locator>)
    requires AdoptedOver(es0, es, g, own) && NewTo(o, es0, refs) && refs !! own
    ensures NewTo(o, es, refs) && UpTo(es, g)
  {
    hide View, Find, UpTo;
    assert forall l :: l in refs ==> SameAt(View(es0), View(es), l);
  }

  lemma LeavesAfterAdopting(es0: seq<Entry>, es1: seq<Entry>, es: seq<Entry>, vs0: set<Locator>, vs: set<Locator>,
                            g: int,
                            refs: set<Locator>, committed: Option<int>, own: set<Locator>)
    requires AdoptedOver(es0, es1, g, own) && Leaves(es1, es, vs0, vs, refs, committed, {})
    ensures Leaves(es0, es, vs0, vs, refs, committed, own)
  {
    hide View, Find;
    forall x | x !in refs && x !in own
      ensures SameAt(View(es0), View(es), x)
    {
      assert SameAt(View(es0), View(es1), x) && SameAt(View(es1), View(es), x);
    }
  }

  /** Locators that were never handed out are new to the ledger and the vault. */
  lemma UnissuedIsNew(o: Owner, s: System, refs: set<Locator>)
    requires Inv(s, false) && refs !! s.issued && (forall l :: l in refs ==> ValidReference(o, l))
    requires forall l, x :: l in refs && x in refs && l.Track() == x.Track() ==> l == x
    ensures NewTo(o, s.Ledger(o), refs) && refs !! s.vault
    ensures s.config.Some? ==> UpTo(s.Ledger(o), s.config.value.generation) && refs !! ManagedRefs(s.config.value, o)
  {
    LedgerFacts(s, false, o);
    PartFacts(s, false, o);
    VaultFacts(s);
    if s.config.Some? {
      forall e | e in s.Ledger(o) && e.committedGeneration.Some?
        ensures e.committedGeneration.value <= s.config.value.generation
      {
        EntryFacts(s, false, o, e);
      }
    }
    hide Inv, View, LedgerOk, MutationOk, BootOk, RuntimesOk;
  }
}
