/** A run without a lost commit in which a retry overlaps an undrained generation and a
    credential is deleted while that generation still leases it. */
module ProtocolRetryExample {
  import opened Wrappers
  import opened Configurations
  import opened CleanupLedgers
  import opened CredentialProtocol
  import opened ProtocolRecovery
  import opened ProtocolRuns

  const OldKey := Locator(SetupModel, 1, 1, true)
  const NewKey := Locator(OperationalModel, 2, 2, true)
  const FirstDraft := Draft("home", "agent", [], ModelConfig("gpt/a", None, OldKey), None)
  const NewModel := ModelConfig("gpt/b", None, NewKey)
  const Change := ReplaceModel(NewModel)
  const First := Configuration(1, 0, FirstDraft)
  const Second := Configuration(2, 0, FirstDraft.(model := NewModel))

  const OldEntry := Entry(OldKey, Active, ConfigurationCommitted, 0, Some(1), 0)
  const NewEntry := Entry(NewKey, Staged, VaultWritePending, 1, None, 0)
  const NewOwner := NewEntry.(phase := Active, reason := ConfigurationCommitted, committedGeneration := Some(2))
  const Replacement := OldEntry.(phase := PendingCleanup, reason := Retired)

  const OldRuntime := Runtime(ModelOwner, {OldKey})
  const NewRuntime := Runtime(ModelOwner, {NewKey})

  /** The change's own next effect. */
  function Go(l: Locator): Action {
    Advance(ModelOwner, l, Done)
  }

  /** The next effect of the background retirement. */
  function Tend(l: Locator): Action {
    Maintain(0, l, Done)
  }

  // The states of the run, each as what it changes in the one before.

  const S1 := Initial.(config := Some(First), held := map[1 := First], vault := {OldKey}, issued := {OldKey})
  const S2 := S1.(runtimes := map[0 := OldRuntime], mounted := map[ModelOwner := 0], nextSerial := 1)
  const S3 := S2.(runtimes := map[0 := OldRuntime, 1 := OldRuntime], mounted := map[ModelOwner := 1], nextSerial := 2)
  const S4 := S3.(issued := {OldKey, NewKey}, begun := {Change}, modelMutation := Adopting(First, Change, {OldKey}))
  const S5 := S4.(modelLedger := [OldEntry], modelMutation := Adopting(First, Change, {}))
  const S6 := S5.(modelMutation := Staging(First, Change, {NewKey}, {}))
  const S7 := S6.(modelLedger := [OldEntry, NewEntry], modelMutation := Writing(First, Change, NewKey, {}, {NewKey}))
  const S8 := S7.(vault := {OldKey, NewKey}, modelMutation := Staging(First, Change, {}, {NewKey}))
  const S9 := S8.(config := Some(Second), held := map[1 := First, 2 := Second],
                  modelMutation := Marking(First, Change, 2, {NewKey}, {}))
  const S10 := S9.(modelLedger := [OldEntry, NewOwner], modelMutation := Marking(First, Change, 2, {}, {}))
  const S11 := S10.(modelMutation := Idle, tasks := map[0 := AwaitDrain(ModelOwner, {OldKey}, Some(1))], nextTask := 1,
                    runtimes := map[0 := OldRuntime, 1 := OldRuntime, 2 := NewRuntime],
                    mounted := map[ModelOwner := 2], nextSerial := 3)
  const S12 := S11.(runtimes := map[0 := OldRuntime, 2 := NewRuntime])
  const S13 := S12.(tasks := map[0 := Retiring(ModelOwner, map[OldKey := 1])])
  const S14 := S13.(modelLedger := [Replacement, NewOwner], tasks := map[0 := Retiring(ModelOwner, map[])])
  const S15 := S14.(tasks := map[0 := Sweeping(ModelOwner, LoadConfig)])
  const S16 := S15.(tasks := map[0 := Sweeping(ModelOwner, ListPending({NewKey}))])
  const S17 := S16.(tasks := map[0 := Sweeping(ModelOwner, Cleaning({OldKey}, Rest))])
  const S18 := S17.(tasks := map[0 := Sweeping(ModelOwner, Cleaning({}, Due(OldKey)))])
  const S19 := S18.(modelLedger := [Replacement.(attempts := 1), NewOwner],
                    tasks := map[0 := Sweeping(ModelOwner, Cleaning({}, Attempted(OldKey)))])
  const S20 := S19.(vault := {NewKey}, tasks := map[0 := Sweeping(ModelOwner, Cleaning({}, Deleted(OldKey)))])

  lemma NamedSets()
    ensures AllRefs(First) == {OldKey} && Refs(First, ModelOwner) == {OldKey}
            && ManagedRefs(First, ModelOwner) == {OldKey}
    ensures Refs(Second, ModelOwner) == {NewKey} && PlanRefs(Change) == {NewKey} && OldKey != NewKey
  {}

  lemma Mounts()
    ensures Step(Initial, Install(FirstDraft, 0)) == S1
    ensures Step(S1, Remount(ModelOwner, false)) == S2
    ensures Step(S2, Remount(ModelOwner, false)) == S3
  {
    NamedSets();
  }

  lemma Begins4()
    ensures Step(S3, Begin(ModelOwner, 1, Change)) == S4
  {
    NamedSets();
    assert ValidPlan(Change);
    assert {OldKey} + {NewKey} == {OldKey, NewKey};
  }

  lemma Adopts()
    ensures Step(S4, Go(OldKey)) == S5
    ensures Step(S5, Go(OldKey)) == S6
  {
    NamedSets();
    assert AdoptCommitted(ModelOwner, [], OldKey, 1) == Ok([OldEntry]);
    assert {OldKey} - {OldKey} == {};
  }

  lemma Finds(e: Entry, f: Entry)
    requires e.ref == OldKey && f.ref == NewKey
    ensures Find([e], NewKey) == -1 && Find([e], OldKey) == 0
    ensures Find([e, f], NewKey) == 1 && Find([e, f], OldKey) == 0
  {}

  lemma Stages()
    ensures Step(S6, Go(NewKey)) == S7
    ensures Step(S7, Go(NewKey)) == S8
  {
    Finds(OldEntry, NewEntry);
    assert Reserve(ModelOwner, [OldEntry], NewKey, 1) == Ok([OldEntry, NewEntry]);
    assert {NewKey} - {NewKey} == {} && {} + {NewKey} == {NewKey};
    assert {OldKey} + {NewKey} == {OldKey, NewKey};
  }

  lemma Commits()
    ensures Step(S8, Go(NewKey)) == S9
  {
    NamedSets();
    assert CommitPlan(Some(First), 1, Change) == Committed(Second);
    assert map[1 := First][2 := Second] == map[1 := First, 2 := Second];
  }

  lemma Marks()
    ensures Step(S9, Go(NewKey)) == S10
  {
    Finds(OldEntry, NewEntry);
    assert MarkCommitted(ModelOwner, [OldEntry, NewEntry], NewKey, 1, 2) == Ok([OldEntry, NewOwner]);
    assert {NewKey} - {NewKey} == {};
  }

  lemma Swaps11()
    ensures Step(S10, Mount(ModelOwner, true)) == S11
  {
    NamedSets();
    assert map[0 := OldRuntime, 1 := OldRuntime][2 := NewRuntime] == map[0 := OldRuntime, 1 := OldRuntime,
                                                                         2 := NewRuntime];
  }

  lemma Drains12()
    ensures Step(S11, Drain(1)) == S12
  {
    assert map[0 := OldRuntime, 1 := OldRuntime, 2 := NewRuntime] - {1} == map[0 := OldRuntime, 2 := NewRuntime];
  }

  /** A step of the one background task. */
  lemma Tends(s: System)
    requires s.boot == Serving
    ensures Step(s, Tend(OldKey)) == DoMaintain(s, 0, OldKey, Done)
  {
    StepShape(s, Tend(OldKey));
    hide Step, DoMaintain;
  }

  lemma OneTask(t: Task, u: Task)
    ensures map[0 as nat := t][0 := u] == map[0 as nat := u]
  {}

  lemma OldGeneration()
    ensures ActiveGenerations([OldEntry, NewOwner], {OldKey}) == map[OldKey := 1]
  {
    Finds(OldEntry, NewOwner);
  }

  lemma Receives()
    ensures Step(S12, Tend(OldKey)) == S13
  {
    Tends(S12);
    DrainedShape(S12, 0, OldKey, Done);
    OldGeneration();
    OneTask(S12.tasks[0], S13.tasks[0]);
    hide Step, DoMaintain, ActiveGenerations;
  }

  lemma Retires()
    ensures Step(S13, Tend(OldKey)) == S14
  {
    Tends(S13);
    RetiringShape(S13, 0, OldKey, Done);
    Finds(OldEntry, NewOwner);
    assert Retire(ModelOwner, [OldEntry, NewOwner], OldKey, 1) == Ok([Replacement, NewOwner]);
    assert map[OldKey := 1] - {OldKey} == map[];
    OneTask(S13.tasks[0], S14.tasks[0]);
    hide Step, DoMaintain, Retire;
  }

  lemma Loads()
    ensures Step(S14, Tend(OldKey)) == S15
  {
    Tends(S14);
    RetiringShape(S14, 0, OldKey, Done);
    hide Step, DoMaintain;
  }

  lemma Reads()
    ensures Step(S15, Tend(OldKey)) == S16
  {
    Tends(S15);
    NamedSets();
    SweepingShape(S15, 0, OldKey, Done);
    hide Step, DoMaintain;
  }

  lemma Lists()
    ensures Step(S16, Tend(OldKey)) == S17
  {
    Tends(S16);
    SweepingShape(S16, 0, OldKey, Done);
    assert Pending([Replacement, NewOwner]) - {NewKey} == {OldKey};
    hide Step, DoMaintain, Pending;
  }

  lemma Picks()
    ensures Step(S17, Tend(OldKey)) == S18
  {
    Tends(S17);
    SweepingShape(S17, 0, OldKey, Done);
    assert {OldKey} - {OldKey} == {};
    hide Step, DoMaintain;
  }

  lemma Attempts()
    ensures Step(S18, Tend(OldKey)) == S19
  {
    Tends(S18);
    SweepingShape(S18, 0, OldKey, Done);
    Finds(Replacement, NewOwner);
    assert MarkCleanupAttempt(ModelOwner, [Replacement, NewOwner],
                              OldKey) == Ok([Replacement.(attempts := 1), NewOwner]);
    hide Step, DoMaintain;
  }

  lemma Deletes()
    ensures Step(S19, Tend(OldKey)) == S20
  {
    Tends(S19);
    SweepingShape(S19, 0, OldKey, Done);
    assert {OldKey, NewKey} - {OldKey} == {NewKey};
    hide Step, DoMaintain;
  }

  function Script(): seq<Action> {
    [Install(FirstDraft, 0), Remount(ModelOwner, false), Remount(ModelOwner, false), Begin(ModelOwner, 1, Change),
     Go(OldKey), Go(OldKey), Go(NewKey), Go(NewKey), Go(NewKey), Go(NewKey), Mount(ModelOwner, true), Drain(1),
     Tend(OldKey), Tend(OldKey), Tend(OldKey), Tend(OldKey), Tend(OldKey), Tend(OldKey), Tend(OldKey), Tend(OldKey)]
  }

  predicate Sane(a: Action) {
    a.Advance? ==> a.fault == Done
  }

  lemma SaneIsSound(s: System, a: Action)
    requires Sane(a)
    ensures Sound(s, a, false)
  {}

  lemma {:induction false} SaneRun(s: System, actions: seq<Action>)
    requires forall a :: a in actions ==> Sane(a)
    ensures SoundRun(s, actions, false)
    decreases |actions|
  {
    if actions != [] {
      SaneIsSound(s, actions[0]);
      SaneRun(Step(s, actions[0]), actions[1..]);
    }
    hide Step, Sound;
  }

  /** `last` is where the steps through `states` lead. */
  lemma {:induction false} Follows(states: seq<System>, actions: seq<Action>)
    requires |states| == |actions| + 1 && forall i :: 0 <= i < |actions| ==>
             Step(states[i], actions[i]) == states[i + 1]
    ensures Exec(states[0], actions) == states[|actions|]
    decreases |actions|
  {
    hide Step;
    if actions != [] {
      Follows(states[1..], actions[1..]);
    }
  }

  /** After a retry over an undrained generation, the next change deletes a credential that
      the undrained generation still leases: no commit was lost on the way. */
  lemma OverlapDeletesLeasedSecret()
    ensures SoundRun(Initial, Script(), false)
    ensures var s := Exec(Initial, Script()); 0 in s.runtimes && !(s.runtimes[0].refs <= s.vault)
  {
    hide *;
    ScriptIsSane();
    SaneRun(Initial, Script());
    ScriptLeadsHere();
    LeasedAndGone();
  }

  lemma ScriptIsSane()
    ensures forall a :: a in Script() ==> Sane(a)
  {}

  lemma LeasedAndGone()
    ensures 0 in S20.runtimes && !(S20.runtimes[0].refs <= S20.vault)
  {
    assert OldKey in S20.runtimes[0].refs && OldKey !in S20.vault;
  }

  lemma ScriptLeadsHere()
    ensures Exec(Initial, Script()) == S20
  {
    hide Step, Exec, Tend, Go;
    var states := [Initial, S1, S2, S3, S4, S5, S6, S7, S8, S9, S10, S11, S12, S13, S14, S15, S16, S17, S18, S19, S20];
    var actions := Script();
    Mounts(); Begins4(); Adopts(); Stages(); Commits(); Marks(); Swaps11(); Drains12();
    Receives(); Retires(); Loads(); Reads(); Lists(); Picks(); Attempts(); Deletes();
    forall i | 0 <= i < |actions|
      ensures Step(states[i], actions[i]) == states[i + 1]
    {
    }
    Follows(states, actions);
  }
}
