/** Where the guarantees end: the two hypotheses of a sound run are needed, and the first
    one is exact. */
module ProtocolLimits {
  import opened Wrappers
  import opened Configurations
  import opened CleanupLedgers
  import opened CredentialProtocol
  import opened ProtocolInvariant
  import opened ProtocolSteps
  import opened ProtocolCommit
  import opened ProtocolAdvance
  import opened ProtocolRuntimes
  import opened ProtocolRuns
  import opened ProtocolHistory

  // -------------------------------------------------------------------------
  // A commit that lands although its call throws
  // -------------------------------------------------------------------------

  /** The failure path after a lost commit, on the first of its staged credentials. */
  function Undoing(o: Owner, l: Locator): seq<Action> {
    [Advance(o, l, Done), Advance(o, l, Done), Advance(o, l, Done)]
  }

  lemma StagedCanBeAbandoned(k: Context, o: Owner, es: seq<Entry>, l: Locator)
    requires Unique(es) && EntriesOk(k, o, View(es)) && l in View(es) && View(es)[l].phase == Staged
    ensures AbandonStaged(o, es, l).Ok? && MarkCleanupAttempt(o, AbandonStaged(o, es, l).entries, l).Ok?
  {
    assert EntryOk(k, o, View(es)[l]);
    AbandonStagedEffect(o, es, l);
  }

  lemma RunCons(s: System, a: Action, rest: seq<Action>, strict: bool)
    ensures Exec(s, [a] + rest) == Exec(Step(s, a), rest)
    ensures SoundRun(s, [a] + rest, strict) <==> Sound(s, a, strict) && SoundRun(Step(s, a), rest, strict)
  {
    assert ([a] + rest)[1..] == rest;
    hide Step, Sound;
  }

  lemma EmptyRun(s: System, strict: bool)
    ensures Exec(s, []) == s && SoundRun(s, [], strict)
  {}

  lemma NothingToLose(s: System, o: Owner, l: Locator)
    requires !s.Mutation(o).Staging?
    ensures Sound(s, Advance(o, l, Done), true)
  {}

  lemma UndoDeletes(s: System, o: Owner, l: Locator)
    requires s.boot == Serving && s.Mutation(o).Abandoning? && s.Mutation(o).cleanup == Rest
             && l in s.Mutation(o).abandon
    requires AbandonStaged(o, s.Ledger(o), l).Ok?
             && MarkCleanupAttempt(o, AbandonStaged(o, s.Ledger(o), l).entries, l).Ok?
    ensures var t := Exec(s, Undoing(o, l)); l !in t.vault && t.config == s.config
    ensures SoundRun(s, Undoing(o, l), true)
  {
    hide *;
    var a := Advance(o, l, Done);
    var s1 := Step(s, a);
    var s2 := Step(s1, a);
    UndoAbandon(s, o, l);
    UndoAttempt(s1, o, l);
    UndoDelete(s2, o, l);
    NothingToLose(s, o, l);
    NothingToLose(s1, o, l);
    NothingToLose(s2, o, l);
    EmptyRun(Step(s2, a), true);
    RunCons(s2, a, [], true);
    RunCons(s1, a, [a], true);
    RunCons(s, a, [a, a], true);
    UndoingIs(o, l);
    assert [a] + [] == [a] && [a] + [a] == [a, a] && [a] + [a, a] == [a, a, a];
  }

  lemma UndoingIs(o: Owner, l: Locator)
    ensures Undoing(o, l) == [Advance(o, l, Done), Advance(o, l, Done), Advance(o, l, Done)]
  {}

  lemma UndoAbandon(s: System, o: Owner, l: Locator)
    requires s.boot == Serving && s.Mutation(o).Abandoning? && s.Mutation(o).cleanup == Rest
             && l in s.Mutation(o).abandon
    requires AbandonStaged(o, s.Ledger(o), l).Ok?
    ensures var t := Step(s, Advance(o, l, Done));
            && t.boot == Serving && t.Mutation(o).Abandoning? && t.Mutation(o).cleanup == Due(l) && t.config == s.config
            && t.Ledger(o) == AbandonStaged(o, s.Ledger(o), l).entries
  {}

  lemma UndoAttempt(s: System, o: Owner, l: Locator)
    requires s.boot == Serving && s.Mutation(o).Abandoning? && s.Mutation(o).cleanup == Due(l)
    requires MarkCleanupAttempt(o, s.Ledger(o), l).Ok?
    ensures var t := Step(s, Advance(o, l, Done));
            t.boot == Serving && t.Mutation(o).Abandoning? && t.Mutation(o).cleanup == Attempted(l)
            && t.config == s.config
  {}

  lemma UndoDelete(s: System, o: Owner, l: Locator)
    requires s.boot == Serving && s.Mutation(o).Abandoning? && s.Mutation(o).cleanup == Attempted(l)
    ensures var t := Step(s, Advance(o, l, Done)); l !in t.vault && t.config == s.config
  {}

  lemma LostCommitShape(s: System, a: Action)
    requires LosesCommit(s, a)
    ensures var m := s.Mutation(a.owner);
            var n := CommitPlan(s.config, m.current.generation, m.plan).configuration;
            Step(s, a) == Landed(s, n, a.owner, Abandoning(m.staged, Rest)) && m.Staging? && m.todo == {}
            && m.staged != {}
  {
    CommitOutcome(s, a.owner, s.Mutation(a.owner), a.fault);
    hide DoCommit, CommitPlan, Landed;
  }

  lemma LandedNames(s: System, n: Configuration, o: Owner, m: Mutation, l: Locator)
    requires l in AllRefs(n)
    ensures var t := Landed(s, n, o, m);
            t.config == Some(n) && Named(Ctx(t, false), l) && t.Ledger(o) == s.Ledger(o) && t.Mutation(o) == m
            && t.boot == s.boot
  {}

  /** From every reachable commit that is lost, the change's own failure path goes on to
      delete a credential that the configuration names by then. */
  lemma LostCommitLosesSecret(s: System, a: Action, l: Locator)
    requires Inv(s, false) && LosesCommit(s, a) && l in s.Mutation(a.owner).staged
    ensures var t := Exec(Step(s, a), Undoing(a.owner, l));
            t.config.Some? && l in AllRefs(t.config.value) && l !in t.vault
    ensures SoundRun(Step(s, a), Undoing(a.owner, l), true)
  {
    var o, m := a.owner, s.Mutation(a.owner);
    var k, es := Ctx(s, false), s.Ledger(o);
    var n := CommitPlan(s.config, m.current.generation, m.plan).configuration;
    LostCommitShape(s, a);
    LostFacts(s, a);
    PartFacts(s, false, o);
    LedgerFacts(s, false, o);
    StagingFacts(k, o, View(es), s.vault, m);
    StagedFacts(k, o, View(es), s.vault, m);
    CommitShape(s.config.value, m.current.generation, m.plan);
    hide *;
    ManagedAreRefs(n, PlanOwner(m.plan));
    StagedCanBeAbandoned(k, o, es, l);
    LandedNames(s, n, o, Abandoning(m.staged, Rest), l);
    UndoDeletes(Step(s, a), o, l);
  }

  lemma LostFacts(s: System, a: Action)
    requires Inv(s, false) && LosesCommit(s, a)
    ensures s.boot == Serving && s.config.Some? && ValidConfiguration(s.config.value)
    ensures CommitPlan(s.config, s.Mutation(a.owner).current.generation, s.Mutation(a.owner).plan).Committed?
    ensures s.config == Some(s.config.value)
  {}

  lemma StagedFacts(k: Context, o: Owner, v: map<Locator, Entry>, vault: set<Locator>, m: Mutation)
    requires m.Staging? && MutationOk(k, o, v, vault, m)
    ensures forall l :: l in m.staged ==> l in v && v[l].phase == Staged
  {}

  ghost predicate KeepsSecrets(t: System) {
    t.config.Some? ==> AllRefs(t.config.value) <= t.vault
  }

  /** Whatever follows a step, the configured credentials stay in the vault. */
  ghost predicate SafeAfter(t: System) {
    forall bs :: SoundRun(t, bs, false) ==> KeepsSecrets(Exec(t, bs))
  }

  /** The commit hypothesis is exact. In every reachable state, an action leads only to
      states that keep the configured credentials if and only if it does not lose a commit. */
  lemma CommitHypothesisIsExact(s: System, a: Action)
    requires Inv(s, false)
    ensures SafeAfter(Step(s, a)) <==> !LosesCommit(s, a)
  {
    if LosesCommit(s, a) {
      StagedNonempty(s, a);
      var l :| l in s.Mutation(a.owner).staged;
      LostCommitLosesSecret(s, a, l);
      var t := Exec(Step(s, a), Undoing(a.owner, l));
      assert !KeepsSecrets(t);
      StrictIsSound(Step(s, a), Undoing(a.owner, l));
      assert SoundRun(Step(s, a), Undoing(a.owner, l), false);
    } else {
      NotStrict(s, a);
      StepKeeps(s, false, a);
      forall bs | SoundRun(Step(s, a), bs, false)
        ensures KeepsSecrets(Exec(Step(s, a), bs))
      {
        RunKeeps(Step(s, a), false, bs);
        InvKeepsSecrets(Exec(Step(s, a), bs));
      }
    }
    hide Step, Inv, KeepsSecrets, Exec, SoundRun, LosesCommit;
  }

  lemma StagedNonempty(s: System, a: Action)
    requires LosesCommit(s, a)
    ensures s.Mutation(a.owner).Staging? && s.Mutation(a.owner).staged != {}
  {}

  lemma NotStrict(s: System, a: Action)
    ensures Sound(s, a, false) <==> !LosesCommit(s, a)
  {}

  lemma {:induction false} StrictIsSound(s: System, actions: seq<Action>)
    requires SoundRun(s, actions, true)
    ensures SoundRun(s, actions, false)
    decreases |actions|
  {
    hide Step;
    if actions != [] {
      StrictIsSound(Step(s, actions[0]), actions[1..]);
    }
  }

  lemma InvKeepsSecrets(t: System)
    requires Inv(t, false)
    ensures KeepsSecrets(t)
  {}

  // -------------------------------------------------------------------------
  // A retry that overlaps an undrained generation
  // -------------------------------------------------------------------------

  /** Mounting the configured credentials again shares a credential between two undrained
      generations exactly when the retry overlaps: the receipt of the next swap, which
      covers one generation only, is then too weak. */
  lemma RetrySharesExactly(s: System, o: Owner, idle: bool)
    requires Inv(s, true) && s.boot == Serving && Remounts(s, o)
    ensures NoSharing(Step(s, Remount(o, idle)).runtimes) <==> !Overlaps(s, Remount(o, idle))
  {
    var t := Step(s, Remount(o, idle));
    StepShape(s, Remount(o, idle));
    RemountShape(s, o, idle);
    if Overlaps(s, Remount(o, idle)) {
      OverlapShares(s, o, idle);
    } else {
      RemountKeeps(s, true, o, idle);
      PartFacts(t, true, o);
      RuntimesApart(t, o);
    }
    hide *;
  }

  lemma OverlapShares(s: System, o: Owner, idle: bool)
    requires RuntimesOk(s) && Remounts(s, o) && Overlaps(s, Remount(o, idle))
    ensures !NoSharing(DoRemount(s, o, idle).runtimes)
  {
    var t := DoRemount(s, o, idle);
    var n := s.mounted[o];
    assert n in t.runtimes && s.nextSerial in t.runtimes && n != s.nextSerial;
    assert t.runtimes[n].refs * t.runtimes[s.nextSerial].refs != {};
  }
}
