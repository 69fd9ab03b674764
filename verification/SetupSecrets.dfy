/** The secrets of setup: every one in the vault is owned by the draft, and exactly when a
    probe leaves recorded evidence without its secret. */
module SetupSecrets {
  import opened Wrappers
  import opened SetupDrafts
  import opened SetupRuns
  import opened SetupProgress
  import opened SetupContents
  import opened SetupControllers

  function OwnedBy(s: Option<Stored>): set<Ref> {
    if s.Some? then Owned(s.value.draft) else {}
  }

  /** The draft reloads and owns every secret that setup wrote. */
  ghost predicate Guarded(w: World) {
    SoundStore(w.file) && w.vault <= OwnedBy(w.file)
  }

  function EvidenceRefs(d: Draft, o: Party): set<Ref> {
    match o
    case Models => ModelRefs(d)
    case Bridges => BridgeRefs(d)
    case Voices => VoiceRefs(d)
  }

  function EvidenceBy(s: Option<Stored>, o: Party): set<Ref> {
    if s.Some? then EvidenceRefs(s.value.draft, o) else {}
  }

  /** The secrets of the recorded evidence of one owner are there. */
  predicate Kept(o: Party, w: World) {
    EvidenceBy(w.file, o) <= w.vault
  }

  predicate SameStoredEvidence(s: Option<Stored>, t: Option<Stored>) {
    (s.Some? <==> t.Some?) && (s.Some? ==> SameEvidence(s.value.draft, t.value.draft))
  }

  lemma SameRefs(s: Option<Stored>, t: Option<Stored>)
    requires SameStoredEvidence(s, t)
    ensures forall o :: EvidenceBy(t, o) == EvidenceBy(s, o)
  {}

  // -------------------------------------------------------------------------
  // One call
  // -------------------------------------------------------------------------

  /** It gives up nothing that the vault still holds. */
  predicate Harmless(w: World, c: Call) {
    c.Request? && w.file.Some? ==> Given(w.file.value.draft, c.op) !! w.vault
  }

  /** A call keeps the file, establishes a session or performs its operation. */
  lemma AfterIs(s: Option<Stored>, c: Call)
    ensures var t := After(s, c);
            || t == s
            || (c.Establish? && t.Some? && t.value.draft == (if s.Some? then s.value.draft else FirstDraft))
            || (c.Request? && s.Some? && t.Some? && Perform(s.value.draft, c.op) == Ok(t.value.draft))
  {
    hide Valid, Perform, FirstDraft;
  }

  lemma FirstOwnsNothing()
    ensures Owned(FirstDraft) == {}
  {}

  lemma GuardIs(w: World)
    ensures Guarded(w) <==> SoundStore(w.file) && w.vault <= OwnedBy(w.file)
    ensures OwnedBy(w.file) == if w.file.Some? then Owned(w.file.value.draft) else {}
    ensures SoundStore(w.file) <==> (w.file.Some? ==> Sound(w.file.value.draft))
  {}

  lemma CareIs(w: World, c: Call)
    requires Careful(w.file, c) && Harmless(w, c) && w.file.Some? && c.Request?
    ensures Fresh(w.file.value.draft, c.op) && Given(w.file.value.draft, c.op) !! w.vault
  {}

  /** A careful call that acknowledges nothing the vault still holds keeps the guard. */
  lemma CallGuards(w: World, c: Call)
    requires Guarded(w) && Careful(w.file, c) && Harmless(w, c)
    ensures Guarded(World(After(w.file, c), w.vault))
  {
    hide *;
    var t := World(After(w.file, c), w.vault);
    GuardIs(w);
    GuardIs(t);
    CallKeepsSound(w.file, c);
    AfterIs(w.file, c);
    FirstOwnsNothing();
    if c.Request? && w.file.Some? && t.file.Some? && Perform(w.file.value.draft, c.op) == Ok(t.file.value.draft) {
      CareIs(w, c);
      LocatorsAreConserved(w.file.value.draft, c.op, t.file.value.draft);
    }
  }

  /** Losing secrets never breaks the guard. */
  lemma FewerSecrets(w: World, vault: set<Ref>)
    requires Guarded(w) && vault <= w.vault
    ensures Guarded(World(w.file, vault))
  {
    hide SoundStore, OwnedBy;
  }

  predicate Upkeep(op: Op) {
    op.AckModel? || op.AckBridge? || op.AckVoice? || op.RetireModel? || op.RetireBridge?
  }

  lemma Maintains(s: Option<Stored>, op: Op, fault: Fault)
    requires Upkeep(op)
    ensures Careful(s, Told(op, fault)) && SameStoredEvidence(s, After(s, Told(op, fault)))
  {
    hide Owned, Valid, AppendCleanup, Without, Holds;
  }

  lemma AckIsHarmless(w: World, o: Party, l: Lease, staged: bool, fault: Fault)
    requires l.ref !in w.vault
    ensures Upkeep(AckOp(o, l, staged)) && Harmless(w, Told(AckOp(o, l, staged), fault))
  {
    hide Holds;
  }

  lemma RetireIsHarmless(w: World, o: Party, l: Lease, fault: Fault)
    requires o != Voices
    ensures Upkeep(RetireOp(o, l)) && Harmless(w, Told(RetireOp(o, l), fault))
  {}

  /** Upkeep by the store itself. */
  lemma UpkeepGuards(w: World, op: Op, fault: Fault)
    requires Guarded(w) && Upkeep(op) && Harmless(w, Told(op, fault))
    ensures var t := World(After(w.file, Told(op, fault)), w.vault); Guarded(t) && SameStoredEvidence(w.file, t.file)
  {
    hide *;
    Maintains(w.file, op, fault);
    CallGuards(w, Told(op, fault));
  }

  // -------------------------------------------------------------------------
  // Discarding and sweeping
  // -------------------------------------------------------------------------

  lemma DeletedIs(vault: set<Ref>, r: Ref, f: Fault)
    ensures Deleted(vault, r, f) == if f == Refused then vault else vault - {r}
    ensures Deleted(vault, r, f) <= vault && (f == Done ==> r !in Deleted(vault, r, f))
  {}

  lemma SameTwice(s: Option<Stored>, t: Option<Stored>, u: Option<Stored>)
    requires SameStoredEvidence(s, t) && SameStoredEvidence(t, u)
    ensures SameStoredEvidence(s, u)
  {}

  lemma SameItself(s: Option<Stored>)
    ensures SameStoredEvidence(s, s)
  {}

  /** Whatever a discard meets, the guard and the evidence stay, and at most the secret of
      its lease goes. */
  lemma DiscardGuards(o: Party, w: World, l: Lease, deletion: Fault, ack: Fault, retire: Fault)
    requires Guarded(w)
    ensures var t := Discarded(o, w, l, deletion, ack, retire);
            Guarded(t) && SameStoredEvidence(w.file, t.file) && t.vault == Deleted(w.vault, l.ref, deletion)
  {
    var t := Discarded(o, w, l, deletion, ack, retire);
    var vault := Deleted(w.vault, l.ref, deletion);
    var acked := World(if deletion == Done then After(w.file, Told(AckOp(o, l, true), ack)) else w.file, vault);
    assert t == acked || (o != Voices && t == World(After(acked.file, Told(RetireOp(o, l), retire)), vault));
    hide *;
    DeletedIs(w.vault, l.ref, deletion);
    FewerSecrets(w, vault);
    SameItself(w.file);
    if deletion == Done {
      AckIsHarmless(World(w.file, vault), o, l, true, ack);
      UpkeepGuards(World(w.file, vault), AckOp(o, l, true), ack);
    }
    if o != Voices {
      RetireIsHarmless(acked, o, l, retire);
      UpkeepGuards(acked, RetireOp(o, l), retire);
      SameTwice(w.file, acked.file, After(acked.file, Told(RetireOp(o, l), retire)));
    }
  }

  function AllEvidence(s: Option<Stored>): set<Ref> {
    if s.Some? then Evidence(s.value.draft) else {}
  }

  lemma AllEvidenceIs(s: Option<Stored>)
    ensures forall o :: EvidenceBy(s, o) <= AllEvidence(s)
  {}

  lemma SameAll(s: Option<Stored>, t: Option<Stored>)
    requires SameStoredEvidence(s, t)
    ensures AllEvidence(s) == AllEvidence(t)
  {}

  lemma SweptListIs(o: Party, w: World, pending: seq<Lease>, deletions: nat -> Fault, acks: nat -> Fault, i: nat)
    requires pending != []
    ensures var l := pending[0];
            var file := if deletions(i) == Done then After(w.file, Told(AckOp(o, l, false), acks(i))) else w.file;
            SweptList(o, w, pending, deletions, acks, i)
            == SweptList(o, World(file, Deleted(w.vault, l.ref, deletions(i))), pending[1..], deletions, acks, i + 1)
  {
    hide After;
  }

  lemma SweptNothing(o: Party, w: World, deletions: nat -> Fault, acks: nat -> Fault, i: nat)
    ensures SweptList(o, w, [], deletions, acks, i) == w
  {}

  lemma {:induction false} SweptListGuards(o: Party, w: World, pending: seq<Lease>, deletions: nat -> Fault,
                                           acks: nat -> Fault, i: nat)
    requires Guarded(w) && forall l :: l in pending ==> l.ref !in AllEvidence(w.file)
    ensures var t := SweptList(o, w, pending, deletions, acks, i);
            && Guarded(t) && SameStoredEvidence(w.file, t.file)
            && t.vault <= w.vault && t.vault * AllEvidence(w.file) == w.vault * AllEvidence(w.file)
    decreases |pending|
  {
    hide *;
    if pending == [] {
      SweptNothing(o, w, deletions, acks, i);
      SameItself(w.file);
    } else {
      var l := pending[0];
      var vault := Deleted(w.vault, l.ref, deletions(i));
      var file := if deletions(i) == Done then After(w.file, Told(AckOp(o, l, false), acks(i))) else w.file;
      SweptListIs(o, w, pending, deletions, acks, i);
      DeletedIs(w.vault, l.ref, deletions(i));
      FewerSecrets(w, vault);
      SameItself(w.file);
      if deletions(i) == Done {
        AckIsHarmless(World(w.file, vault), o, l, false, acks(i));
        UpkeepGuards(World(w.file, vault), AckOp(o, l, false), acks(i));
      }
      SameAll(w.file, file);
      SweptListGuards(o, World(file, vault), pending[1..], deletions, acks, i + 1);
      SameTwice(w.file, file, SweptList(o, World(file, vault), pending[1..], deletions, acks, i + 1).file);
      assert vault * AllEvidence(w.file) == w.vault * AllEvidence(w.file);
    }
  }

  lemma PendingIsNoEvidence(o: Party, w: World)
    requires Guarded(w) && w.file.Some?
    ensures Valid(w.file.value.draft)
    ensures forall l :: l in FirstFew(Queues(w.file.value.draft, o).cleanup) ==> l.ref !in AllEvidence(w.file)
  {
    var d := w.file.value.draft;
    OwnedOnce(d);
    MemberRefs(d.models.cleanup);
    MemberRefs(d.bridges.cleanup);
    MemberRefs(d.voices.cleanup);
    hide Valid, Refs, ModelRefs, BridgeRefs, VoiceRefs;
  }

  lemma SweptIs(o: Party, w: World, deletions: nat -> Fault, acks: nat -> Fault)
    ensures Swept(o, w, deletions, acks) ==
            if w.file.None? || !Valid(w.file.value.draft) then w
            else SweptList(o, w, FirstFew(Queues(w.file.value.draft, o).cleanup), deletions, acks, 0)
  {
    hide Valid, SweptList;
  }

  /** A sweep of any owner keeps the guard, the evidence of all owners and every secret of it. */
  lemma SweepGuards(o: Party, w: World, deletions: nat -> Fault, acks: nat -> Fault)
    requires Guarded(w)
    ensures var t := Swept(o, w, deletions, acks);
            && Guarded(t) && SameStoredEvidence(w.file, t.file) && t.vault <= w.vault
            && forall p :: Kept(p, t) <==> Kept(p, w)
  {
    hide *;
    var t := Swept(o, w, deletions, acks);
    SweptIs(o, w, deletions, acks);
    SameItself(w.file);
    if w.file.Some? && Valid(w.file.value.draft) {
      PendingIsNoEvidence(o, w);
      SweptListGuards(o, w, FirstFew(Queues(w.file.value.draft, o).cleanup), deletions, acks, 0);
    }
    SameRefs(w.file, t.file);
    AllEvidenceIs(w.file);
    forall p
      ensures Kept(p, t) <==> Kept(p, w)
    {
      KeptIs(p, t);
      KeptIs(p, w);
      Covered(EvidenceBy(w.file, p), AllEvidence(w.file), w.vault, t.vault);
    }
  }

  lemma KeptIs(o: Party, w: World)
    ensures Kept(o, w) <==> EvidenceBy(w.file, o) <= w.vault
  {}

  lemma Covered(part: set<Ref>, all: set<Ref>, vault: set<Ref>, vault': set<Ref>)
    requires part <= all && vault' * all == vault * all
    ensures part <= vault' <==> part <= vault
  {
    assert forall r :: r in all ==> (r in vault' * all <==> r in vault * all);
  }

  // -------------------------------------------------------------------------
  // Probing a model or a bridge
  // -------------------------------------------------------------------------

  /** What the input checks of the two owners stage. */
  predicate Stageable(o: Party, l: Lease) {
    match o
    case Models => Evident(l) && Loaded(l) == l
    case Bridges => l.ref.kind == BridgeKey && l.details.Words?
    case Voices => false
  }

  /** The lease is handed out and nothing is recorded yet. */
  predicate Handed(o: Party, s: Option<Stored>, l: Lease) {
    s.Some? && l in Queues(s.value.draft, o).staging && EvidenceBy(s, o) == {}
  }

  lemma ReserveCareful(o: Party, w: World, l: Lease, x: Attempt)
    requires Stageable(o, l) && l.ref !in OwnedBy(w.file)
    ensures Careful(w.file, ReserveCall(o, l, x)) && Harmless(w, ReserveCall(o, l, x))
  {
    hide Owned, Evident;
  }

  lemma ReserveLands(o: Party, s: Option<Stored>, l: Lease, x: Attempt)
    requires Stageable(o, l)
    ensures var c := ReserveCall(o, l, x);
            SameStoredEvidence(s, After(s, c)) && (Answer(s, c).Ok? && x.reserve == Done ==> Handed(o, After(s, c), l))
  {
    hide Valid, Holds, Evident;
    if s.Some? {
      var p := Queues(s.value.draft, o);
      assert Loaded(l) == l;
      assert (p.staging + [l])[|p.staging|] == l;
    }
  }

  /** After a reservation, only the end of the session can refuse the record. */
  lemma RecordIsAnswered(o: Party, s: Option<Stored>, l: Lease, x: Attempt)
    requires Stageable(o, l) && Answer(s, ReserveCall(o, l, x)).Ok? && x.reserve == Done
             && SoundStore(After(s, ReserveCall(o, l, x)))
    ensures s.Some? && (Answer(After(s, ReserveCall(o, l, x)), RecordCall(o, l, x)).Ok? <==> x.later < s.value.expires)
  {
    hide Valid, Sound, Holds, Evident, Perform;
    ReserveLands(o, s, l, x);
    ReservedIs(o, s, l, x);
    var t := After(s, ReserveCall(o, l, x));
    SoundIsValid(t.value.draft);
    HandedPerforms(o, t, l, x);
  }

  /** The session, the step and the revision that a reservation leaves. */
  lemma ReservedIs(o: Party, s: Option<Stored>, l: Lease, x: Attempt)
    requires o != Voices && Answer(s, ReserveCall(o, l, x)).Ok? && x.reserve == Done
    ensures s.Some? && x.token == s.value.token && x.revision == s.value.draft.revision
    ensures var t := After(s, ReserveCall(o, l, x));
            && t.Some? && t.value.token == s.value.token && t.value.expires == s.value.expires
            && t.value.draft.revision == s.value.draft.revision && t.value.draft.step == StepOf(o)
  {
    hide Valid, Holds, Admitted, Loaded;
  }

  lemma HandedPerforms(o: Party, t: Option<Stored>, l: Lease, x: Attempt)
    requires o != Voices && Stageable(o, l) && Handed(o, t, l) && t.value.draft.step == StepOf(o)
    ensures Perform(t.value.draft, RecordCall(o, l, x).op).Ok?
  {
    hide Admitted, Loaded, Strict, Without;
    assert Same(l, l) && Holds(Queues(t.value.draft, o).staging, l);
  }

  lemma RecordCareful(o: Party, w: World, l: Lease, x: Attempt)
    requires Stageable(o, l)
    ensures Careful(w.file, RecordCall(o, l, x)) && Harmless(w, RecordCall(o, l, x))
  {
    hide Owned, Admitted;
  }

  lemma RecordLands(o: Party, s: Option<Stored>, l: Lease, x: Attempt)
    requires Stageable(o, l) && s.Some? && Answer(s, RecordCall(o, l, x)).Ok?
    ensures var t := After(s, RecordCall(o, l, x));
            && t.Some?
            && (x.record == Refused ==> t == s)
            && (x.record != Refused ==> EvidenceBy(t, o) == {l.ref})
            && forall p :: p != o ==> EvidenceBy(t, p) == EvidenceBy(s, p)
  {
    hide Valid, Holds, Without, Evident;
  }

  /** A handed-out locator may be written. */
  lemma HandedMayWrite(o: Party, w: World, l: Lease)
    requires Guarded(w) && Handed(o, w.file, l)
    ensures Guarded(World(w.file, w.vault + {l.ref}))
  {
    GuardIs(w);
    GuardIs(World(w.file, w.vault + {l.ref}));
    var d := w.file.value.draft;
    MemberRefs(Queues(d, o).staging);
    QueuedRefs(Queues(d, o));
    OwnsQueued(d);
    hide Guarded, SoundStore, OwnedBy, Owned, Queued, Refs, EvidenceBy;
  }

  lemma OwnsQueued(d: Draft)
    ensures Queued(d.models) <= Owned(d) && Queued(d.bridges) <= Owned(d) && Queued(d.voices) <= Owned(d)
    ensures Evidence(d) <= Owned(d)
  {}

  lemma NotEvidenceYet(s: Option<Stored>, r: Ref)
    requires r !in OwnedBy(s)
    ensures forall o :: r !in EvidenceBy(s, o)
  {
    if s.Some? {
      OwnsQueued(s.value.draft);
    }
    AllEvidenceIs(s);
    hide Owned, EvidenceBy, Evidence;
  }

  /** The one way to lose the secret of what was just recorded: the record lands although
      its call throws, and the discard deletes. */
  predicate LosesSecret(o: Party, w: World, l: Lease, x: Attempt)
    requires o != Voices
  {
    && Answer(w.file, ReserveCall(o, l, x)).Ok? && x.reserve == Done && Passes(x)
    && Answer(After(w.file, ReserveCall(o, l, x)), RecordCall(o, l, x)).Ok? && x.record == Lost && x.deletion != Refused
  }

  lemma ProbeIs(o: Party, w: World, l: Lease, x: Attempt)
    requires o != Voices
    ensures var file := After(w.file, ReserveCall(o, l, x));
            var held := World(file, if x.cancelledBefore || x.write == Refused then w.vault else w.vault + {l.ref});
            var recorded := World(After(file, RecordCall(o, l, x)), held.vault);
            AfterProbe(o, w, l, x) ==
              if !Answer(w.file, ReserveCall(o, l, x)).Ok? || x.reserve != Done then World(file, w.vault)
              else if !Passes(x) then Discarded(o, held, l, x.deletion, x.ack, x.retire)
              else if Answer(file, RecordCall(o, l, x)).Ok? && x.record == Done then recorded
              else Discarded(o, recorded, l, x.deletion, x.ack, x.retire)
    ensures Passes(x) ==> !x.cancelledBefore && x.write == Done
    ensures LosesSecret(o, w, l, x) <==>
              && Answer(w.file, ReserveCall(o, l, x)).Ok? && x.reserve == Done && Passes(x)
              && Answer(After(w.file, ReserveCall(o, l, x)), RecordCall(o, l, x)).Ok? && x.record == Lost
              && x.deletion != Refused
    ensures Recorded(o, w, l, x) <==>
              Answer(w.file, ReserveCall(o, l, x)).Ok? && x.reserve == Done && Passes(x)
              && Answer(After(w.file, ReserveCall(o, l, x)), RecordCall(o, l, x)).Ok? && x.record == Done
  {
    hide Answer, After, Discarded;
  }

  /** The exact condition: under any faults and cancellation every setup secret stays owned,
      and a probe leaves the recorded credential of its owner without its secret if and
      only if the record lands and throws and the discard deletes. No other owner's
      evidence is touched. */
  lemma ProbeKeepsSecretsExactly(o: Party, w: World, l: Lease, x: Attempt)
    requires o != Voices && Guarded(w) && Stageable(o, l) && l.ref !in OwnedBy(w.file)
    ensures var t := AfterProbe(o, w, l, x);
            && Guarded(t)
            && (Kept(o, t) <==> Kept(o, w) && !LosesSecret(o, w, l, x))
            && (forall p :: p != o ==> (Kept(p, t) <==> Kept(p, w)))
            && (Recorded(o, w, l, x) ==> EvidenceBy(t.file, o) == {l.ref} && Kept(o, t))
  {
    hide *;
    ProbeIs(o, w, l, x);
    var file := After(w.file, ReserveCall(o, l, x));
    ReserveCareful(o, w, l, x);
    CallGuards(w, ReserveCall(o, l, x));
    ReserveLands(o, w.file, l, x);
    SameRefs(w.file, file);
    NotEvidenceYet(w.file, l.ref);
    forall p
      ensures Kept(p, World(file, w.vault)) <==> Kept(p, w)
    {
      KeptIs(p, w);
      KeptIs(p, World(file, w.vault));
    }
    if Answer(w.file, ReserveCall(o, l, x)).Ok? && x.reserve == Done {
      HeldKeepsSecrets(o, w, l, x, file);
    }
  }

  lemma HandedIs(o: Party, s: Option<Stored>, l: Lease)
    requires Handed(o, s, l)
    ensures s.Some? && EvidenceBy(s, o) == {}
  {}

  lemma HeldKeepsSecrets(o: Party, w: World, l: Lease, x: Attempt, file: Option<Stored>)
    requires o != Voices && Stageable(o, l) && file == After(w.file, ReserveCall(o, l, x))
    requires Answer(w.file, ReserveCall(o, l, x)).Ok? && x.reserve == Done
    requires Guarded(World(file, w.vault)) && Handed(o, file, l)
    requires forall p :: EvidenceBy(file, p) == EvidenceBy(w.file, p) && l.ref !in EvidenceBy(w.file, p)
    ensures var t := AfterProbe(o, w, l, x);
            && Guarded(t)
            && (Kept(o, t) <==> Kept(o, w) && !LosesSecret(o, w, l, x))
            && (forall p :: p != o ==> (Kept(p, t) <==> Kept(p, w)))
            && (Recorded(o, w, l, x) ==> EvidenceBy(t.file, o) == {l.ref} && Kept(o, t))
  {
    hide *;
    ProbeIs(o, w, l, x);
    HandedIs(o, file, l);
    HandedMayWrite(o, World(file, w.vault), l);
    GuardIs(World(file, w.vault));
    var held := World(file, if x.cancelledBefore || x.write == Refused then w.vault else w.vault + {l.ref});
    RecordCareful(o, held, l, x);
    CallGuards(held, RecordCall(o, l, x));
    if Answer(file, RecordCall(o, l, x)).Ok? {
      RecordLands(o, file, l, x);
    } else {
      RefusedStays(file, RecordCall(o, l, x));
    }
    var recorded := World(After(file, RecordCall(o, l, x)), held.vault);
    DiscardGuards(o, held, l, x.deletion, x.ack, x.retire);
    DiscardGuards(o, recorded, l, x.deletion, x.ack, x.retire);
    DeletedIs(held.vault, l.ref, x.deletion);
    var dropped, undone := Discarded(o, held, l, x.deletion, x.ack, x.retire),
        Discarded(o, recorded, l, x.deletion, x.ack, x.retire);
    SameRefs(held.file, dropped.file);
    SameRefs(recorded.file, undone.file);
    var t := AfterProbe(o, w, l, x);
    forall p
      ensures if p == o then Kept(p, t) <==> Kept(p, w) && !LosesSecret(o, w, l, x) else Kept(p, t) <==> Kept(p, w)
    {
      KeptIs(p, w);
      KeptIs(p, t);
      assert EvidenceBy(w.file, o) == {};
    }
    KeptIs(o, w);
    KeptIs(o, t);
  }

  lemma SweptTwiceIs(o: Party, w: World, own: Pass, voice: Pass)
    ensures SweptTwice(o, w, own, voice)
            == Swept(Voices, Swept(o, w, own.deletions, own.acks), voice.deletions, voice.acks)
  {
    hide Swept;
  }

  lemma {:induction false} SweptAfter(o: Party, w: World, own: Pass, voice: Pass)
    requires Guarded(w)
    ensures var t := SweptTwice(o, w, own, voice);
            Guarded(t) && SameStoredEvidence(w.file, t.file) && forall p :: Kept(p, t) <==> Kept(p, w)
  {
    hide *;
    var u := Swept(o, w, own.deletions, own.acks);
    SweptTwiceIs(o, w, own, voice);
    SweepGuards(o, w, own.deletions, own.acks);
    SweepGuards(Voices, u, voice.deletions, voice.acks);
    SameTwice(w.file, u.file, Swept(Voices, u, voice.deletions, voice.acks).file);
  }

  /** The same for the whole call, with the sweeps that follow it. */
  lemma ProbeCallKeepsSecretsExactly(o: Party, w: World, l: Lease, x: Attempt, own: Pass, voice: Pass)
    requires o != Voices && Guarded(w) && Stageable(o, l) && l.ref !in OwnedBy(w.file)
    ensures var t := SweptTwice(o, AfterProbe(o, w, l, x), own, voice);
            && Guarded(t)
            && (Kept(o, t) <==> Kept(o, w) && !LosesSecret(o, w, l, x))
            && (forall p :: p != o ==> (Kept(p, t) <==> Kept(p, w)))
            && (Recorded(o, w, l, x) ==> EvidenceBy(t.file, o) == {l.ref} && Kept(o, t))
  {
    hide *;
    ProbeKeepsSecretsExactly(o, w, l, x);
    var u := AfterProbe(o, w, l, x);
    SweptAfter(o, u, own, voice);
    SameRefs(u.file, SweptTwice(o, u, own, voice).file);
  }

  /** What the controller stages for a model is what the condition is about. */
  lemma PreparedIsStageable(p: Provider, modelId: string, nonce: string, baseUrl: string)
    ensures var l := PreparedStage(p, modelId, nonce, baseUrl);
            l.Some? ==> Stageable(Models, l.value) && l.value.ref == Ref(ModelKey, nonce)
  {
    PreparedIsEvident(p, modelId, nonce, baseUrl);
    hide PreparedStage, Evident;
  }

  /** The controller's own call, from what its user enters. */
  lemma ModelProbeKeepsSecretsExactly(w: World, p: Provider, modelId: string, nonce: string, baseUrl: string,
                                      x: Attempt,
                                      own: Pass, voice: Pass)
    requires Guarded(w) && Ref(ModelKey, nonce) !in OwnedBy(w.file)
    ensures var l := PreparedStage(p, modelId, nonce, baseUrl);
            var u := if l.None? then w else AfterProbe(Models, w, l.value, x);
            var t := SweptTwice(Models, u, own, voice);
            && Guarded(t)
            && (Kept(Models, t) <==> Kept(Models, w) && !(l.Some? && LosesSecret(Models, w, l.value, x)))
            && (forall o :: o != Models ==> (Kept(o, t) <==> Kept(o, w)))
  {
    hide *;
    PreparedIsStageable(p, modelId, nonce, baseUrl);
    var l := PreparedStage(p, modelId, nonce, baseUrl);
    if l.Some? {
      ProbeCallKeepsSecretsExactly(Models, w, l.value, x, own, voice);
    } else {
      SweptAfter(Models, w, own, voice);
    }
  }

  /** Hence a lost record does lose a secret that the draft names, from every guarded state
      in which the probe is admitted at all. */
  lemma LostRecordLosesSecret(w: World, l: Lease, x: Attempt, own: Pass, voice: Pass)
    requires Guarded(w) && Stageable(Models, l) && l.ref !in OwnedBy(w.file)
    requires Answer(w.file, ReserveCall(Models, l, x)).Ok? && x.reserve == Done && Passes(x)
             && x.later < w.file.value.expires && x.record == Lost && x.deletion != Refused
    ensures var t := SweptTwice(Models, AfterProbe(Models, w, l, x), own, voice);
            t.file.Some? && t.file.value.draft.model.Some? && t.file.value.draft.model.value.ref !in t.vault
  {
    hide *;
    ProbeCallKeepsSecretsExactly(Models, w, l, x, own, voice);
    ProbeIs(Models, w, l, x);
    ReserveCareful(Models, w, l, x);
    CallGuards(w, ReserveCall(Models, l, x));
    GuardIs(World(After(w.file, ReserveCall(Models, l, x)), w.vault));
    RecordIsAnswered(Models, w.file, l, x);
    var t := SweptTwice(Models, AfterProbe(Models, w, l, x), own, voice);
    KeptIs(Models, t);
    ModelEvidenceIs(t.file);
  }

  lemma ModelEvidenceIs(s: Option<Stored>)
    ensures EvidenceBy(s, Models) == if s.Some? && s.value.draft.model.Some? then {s.value.draft.model.value.ref}
            else {}
  {}

  // What a probe leaves

  /** The draft of a recorded probe: the next step, with the lease as its evidence. */
  function Advanced(d: Draft, o: Party, l: Lease): Draft
    requires o != Voices
  {
    if o == Models then d.(revision := d.revision + 1, step := Bridge, model := Some(l))
    else d.(revision := d.revision + 1, step := Voice, bridge := Some(l))
  }

  lemma ReserveHandsOut(o: Party, w: World, l: Lease, x: Attempt)
    requires o != Voices && SoundStore(w.file) && Stageable(o, l)
    requires Answer(w.file, ReserveCall(o, l, x)).Ok? && x.reserve == Done
    ensures var file := After(w.file, ReserveCall(o, l, x));
            && w.file.Some? && Queues(w.file.value.draft, o).staging == []
            && file == Some(w.file.value.(draft := WithQueues(w.file.value.draft, o,
                                                              Pending(Queues(w.file.value.draft, o).cleanup, [l]))))
  {
    hide Sound, Valid, Perform, Evident, Admits, Holds;
    CallsExactly(w.file, ReserveCall(o, l, x));
    var d := w.file.value.draft;
    AdmitsEmpty(d, o, l);
  }

  lemma AdmitsEmpty(d: Draft, o: Party, l: Lease)
    requires o == Models || o == Bridges
    ensures Admits(d, if o == Models then ReserveModel(l) else ReserveBridge(l)) ==> Queues(d, o).staging == []
  {
    hide Admitted, Holds;
  }

  lemma RecordAdvances(o: Party, s: Option<Stored>, d: Draft, l: Lease, x: Attempt)
    requires o != Voices && SoundStore(s) && Stageable(o, l) && s.Some? && Queues(d, o).staging == []
    requires s.value.draft == WithQueues(d, o, Pending(Queues(d, o).cleanup, [l]))
    requires Answer(s, RecordCall(o, l, x)).Ok? && x.record == Done
    ensures After(s, RecordCall(o, l, x)) == Some(s.value.(draft := Advanced(d, o, l)))
  {
    hide Sound, Valid, Perform, Evident, Admits, Holds;
    CallsExactly(s, RecordCall(o, l, x));
  }

  lemma OneGoesOut(q: seq<Lease>, l: Lease)
    requires OneOut([l], q, l)
    ensures q == []
  {
    assert l in [l] && Same(l, l);
  }

  lemma OneMovesOver(o: Party, c: seq<Lease>, l: Lease, q: Pending, deletion: Fault, ack: Fault, retire: Fault)
    requires Dropped(o, Pending(c, [l]), q, l, deletion, ack, retire)
    ensures deletion == Done && ack != Refused ==> q == Pending(c, [])
    ensures !(deletion == Done && ack != Refused) && o != Voices && retire != Refused ==> q == Pending(c + [l], [])
    ensures !(deletion == Done && ack != Refused) && (o == Voices || retire == Refused) ==> q == Pending(c, [l])
  {
    assert l in [l] && Same(l, l);
    if OneOut([l], q.staging, l) {
      OneGoesOut(q.staging, l);
    }
    hide OneOut;
  }

  /** What a reserved probe leaves of draft and vault. Recorded, the draft is at its next step
      with the lease as evidence and its secret in the vault; not passed, its secret goes as
      the delete does, and the lease is gone, queued for cleanup or still handed out, as the
      effects of the discard decide. Everything else of the draft is as it was. */
  lemma ProbesExactly(o: Party, w: World, l: Lease, x: Attempt)
    requires o != Voices && Guarded(w) && Stageable(o, l) && l.ref !in OwnedBy(w.file)
    requires Answer(w.file, ReserveCall(o, l, x)).Ok? && x.reserve == Done
    ensures w.file.Some?
    ensures var s := w.file.value;
            var d := s.draft;
            var c := Queues(d, o).cleanup;
            var t := AfterProbe(o, w, l, x);
            && (Recorded(o, w, l, x) ==> t == World(Some(s.(draft := Advanced(d, o, l))), w.vault + {l.ref}))
            && (!Passes(x) ==>
                  && (t.vault == if x.deletion == Refused && !x.cancelledBefore && x.write != Refused
                                 then w.vault + {l.ref} else w.vault)
                  && (x.deletion == Done && x.ack != Refused ==> t.file == w.file)
                  && (!(x.deletion == Done && x.ack != Refused) && x.retire != Refused ==>
                        t.file == Some(s.(draft := WithQueues(d, o, Pending(c + [l], [])))))
                  && (!(x.deletion == Done && x.ack != Refused) && x.retire == Refused ==>
                        t.file == Some(s.(draft := WithQueues(d, o, Pending(c, [l]))))))
  {
    hide *;
    ProbeIs(o, w, l, x);
    GuardIs(w);
    ReserveHandsOut(o, w, l, x);
    ReserveCareful(o, w, l, x);
    CallGuards(w, ReserveCall(o, l, x));
    var s := w.file.value;
    var d := s.draft;
    var c := Queues(d, o).cleanup;
    var file := After(w.file, ReserveCall(o, l, x));
    GuardIs(World(file, w.vault));
    QueuesTwice(d, o, Pending(c, [l]), Pending(c, []));
    if Recorded(o, w, l, x) {
      RecordAdvances(o, file, d, l, x);
    }
    if !Passes(x) {
      var held := World(file, if x.cancelledBefore || x.write == Refused then w.vault else w.vault + {l.ref});
      DiscardsExactly(o, held, l, x.deletion, x.ack, x.retire);
      var q := Queues(Discarded(o, held, l, x.deletion, x.ack, x.retire).file.value.draft, o);
      OneMovesOver(o, c, l, q, x.deletion, x.ack, x.retire);
      QueuesTwice(d, o, Pending(c, [l]), q);
      assert Queues(d, o) == Pending(c, []);
    }
  }

  // -------------------------------------------------------------------------
  // Probing a voice track
  // -------------------------------------------------------------------------

  function NewVoice(v: VoiceStage): set<Ref> {
    if v.ref.Some? then {v.ref.value} else {}
  }

  predicate VoiceRecordLands(w: World, v: VoiceStage, x: Attempt) {
    ReachesRecord(w, v, x) && Answer(VoiceFile(w, v, x), VoiceRecord(v, x)).Ok? && x.record != Refused
  }

  /** The record lands without its guard: another lease is left over, or there is no room. */
  ghost predicate Unguarded(w: World, v: VoiceStage, x: Attempt) {
    VoiceRecordLands(w, v, x) && VoiceFile(w, v, x).Some? && !Safe(VoiceFile(w, v, x).value.draft, RecordVoice(v))
  }

  predicate LosesVoiceSecret(w: World, v: VoiceStage, x: Attempt) {
    VoiceRecordLands(w, v, x) && x.record == Lost && v.ref.Some? && x.deletion != Refused
  }

  lemma VoiceProbeIs(w: World, v: VoiceStage, x: Attempt)
    ensures var file, record := VoiceFile(w, v, x), VoiceRecord(v, x);
            var held := World(file, if v.ref.None? || x.write == Refused then w.vault else w.vault + NewVoice(v));
            var recorded := World(After(file, record), held.vault);
            AfterVoiceProbe(w, v, x) ==
              if v.ref.Some? && (!Answer(w.file, VoiceReserve(v, x)).Ok? || x.reserve != Done) then World(file, w.vault)
              else if !ReachesRecord(w, v, x) then
                if v.ref.None? then held else Discarded(Voices, held, StageLease(v), x.deletion, x.ack, x.retire)
              else if v.ref.None? || (Answer(file, record).Ok? && x.record == Done) then recorded
              else Discarded(Voices, recorded, StageLease(v), x.deletion, x.ack, x.retire)
  {
    if v.ref.Some? && Answer(w.file, VoiceReserve(v, x)).Ok? {
      OutsideNothingHappens(Voices, w.file, x, VoiceReserve(v, x));
    }
    hide Answer, After, Discarded, AtStep;
  }

  lemma VoiceReserveFacts(w: World, v: VoiceStage, x: Attempt)
    requires Guarded(w) && NewVoice(v) !! OwnedBy(w.file)
    ensures var file := VoiceFile(w, v, x);
            && Guarded(World(file, w.vault)) && SameStoredEvidence(w.file, file)
            && (v.ref.Some? && Answer(w.file, VoiceReserve(v, x)).Ok? && x.reserve == Done ==>
                  Guarded(World(file, w.vault + NewVoice(v))))
  {
    SameItself(w.file);
    assert w.vault + {} == w.vault;
    if v.ref.Some? {
      VoiceReserveCareful(w, v, x);
      CallGuards(w, VoiceReserve(v, x));
      VoiceReserveLands(w.file, v, x);
      var file := VoiceFile(w, v, x);
      if Answer(w.file, VoiceReserve(v, x)).Ok? && x.reserve == Done {
        GuardIs(World(file, w.vault));
        GuardIs(World(file, w.vault + NewVoice(v)));
        MemberRefs(file.value.draft.voices.staging);
        OwnsQueued(file.value.draft);
      }
    }
    hide Guarded, SoundStore, OwnedBy, Owned, Refs, Answer, After;
  }

  lemma VoiceReserveCareful(w: World, v: VoiceStage, x: Attempt)
    requires NewVoice(v) !! OwnedBy(w.file)
    ensures Careful(w.file, VoiceReserve(v, x)) && Harmless(w, VoiceReserve(v, x))
  {
    hide Owned;
  }

  lemma VoiceReserveLands(s: Option<Stored>, v: VoiceStage, x: Attempt)
    requires v.ref.Some?
    ensures var c := VoiceReserve(v, x);
            && SameStoredEvidence(s, After(s, c))
            && (Answer(s, c).Ok? && x.reserve == Done ==>
                After(s, c).Some? && StageLease(v) in After(s, c).value.draft.voices.staging)
  {
    hide Valid, Holds;
    if s.Some? {
      var ls := s.value.draft.voices.staging;
      assert (ls + [StageLease(v)])[|ls|] == StageLease(v);
    }
  }

  lemma StageLeaseRef(v: VoiceStage)
    requires v.ref.Some?
    ensures StageLease(v).ref == v.ref.value && NewVoice(v) == {v.ref.value}
  {}

  lemma VoiceRecordWrites(s: Option<Stored>, v: VoiceStage, x: Attempt)
    requires Answer(s, VoiceRecord(v, x)).Ok? && x.record != Refused
    ensures var t := After(s, VoiceRecord(v, x));
            s.Some? && t.Some? && Perform(s.value.draft, RecordVoice(v)) == Ok(t.value.draft)
    ensures s.Some? ==> Fresh(s.value.draft, RecordVoice(v))
  {
    hide Valid, Perform;
  }

  lemma VoiceRecordFacts(s: Option<Stored>, v: VoiceStage, x: Attempt)
    requires SoundStore(s) && Answer(s, VoiceRecord(v, x)).Ok? && x.record != Refused
    ensures var t := After(s, VoiceRecord(v, x));
            && s.Some? && t.Some? && Perform(s.value.draft, RecordVoice(v)) == Ok(t.value.draft)
            && (Valid(t.value.draft) <==> Safe(s.value.draft, RecordVoice(v)))
            && (forall p :: p != Voices ==> EvidenceBy(t, p) == EvidenceBy(s, p))
            && (exists other :: other <= EvidenceBy(s, Voices) && EvidenceBy(t, Voices) == other + NewVoice(v))
  {
    VoiceRecordWrites(s, v, x);
    hide Valid, Sound, Perform, Safe, Holds, KeptVoices, VoiceRefs, AppendCleanup, Answer, After;
    var d, e := s.value.draft, After(s, VoiceRecord(v, x)).value.draft;
    WriteReloadsExactly(d, RecordVoice(v), e);
    RecordedShape(d, v, e);
    RecordedRest(d, v, e);
    assert TrackRefs(OtherTrack(d, v)) <= VoiceRefs(d);
    assert VoiceRefs(e) == TrackRefs(OtherTrack(d, v)) + NewVoice(v);
  }

  lemma RefusedStays(s: Option<Stored>, c: Call)
    ensures s.Some? && !Valid(s.value.draft) ==> After(s, c) == s
    ensures !Answer(s, c).Ok? || c.fault == Refused ==> After(s, c) == s
  {
    hide Valid, Perform;
  }

  /** The exact conditions for a voice track: the draft stays readable unless the record
      lands without its guard, and then the evidence keeps its secrets unless the record
      lands and throws and the discard deletes. */
  lemma VoiceProbeKeepsSecretsExactly(w: World, v: VoiceStage, x: Attempt)
    requires Guarded(w) && NewVoice(v) !! OwnedBy(w.file)
    ensures var t := AfterVoiceProbe(w, v, x);
            && (t.file.Some? && !Valid(t.file.value.draft) <==> Unguarded(w, v, x))
            && (!Unguarded(w, v, x) ==>
                  && Guarded(t)
                  && (Kept(Voices, w) ==> (Kept(Voices, t) <==> !LosesVoiceSecret(w, v, x)))
                  && forall p :: p != Voices ==> (Kept(p, t) <==> Kept(p, w)))
  {
    hide *;
    VoiceProbeIs(w, v, x);
    VoiceReserveFacts(w, v, x);
    var file := VoiceFile(w, v, x);
    var t := AfterVoiceProbe(w, v, x);
    VoiceConditions(w, v, x);
    SameRefs(w.file, file);
    NewIsNoEvidence(w.file, v);
    if ReachesRecord(w, v, x) {
      VoiceRecordKeeps(w, v, x);
    } else {
      var held := World(file, if v.ref.None? || x.write == Refused then w.vault else w.vault + NewVoice(v));
      NoVoice(v, w.vault);
      if v.ref.Some? && Answer(w.file, VoiceReserve(v, x)).Ok? && x.reserve == Done {
        StageLeaseRef(v);
        DiscardGuards(Voices, held, StageLease(v), x.deletion, x.ack, x.retire);
        DeletedIs(held.vault, v.ref.value, x.deletion);
        SameRefs(held.file, t.file);
      }
      GuardedReads(t);
      forall p
        ensures Kept(p, t) <==> Kept(p, w)
      {
        KeptIs(p, t);
        KeptIs(p, w);
      }
    }
  }

  lemma NoVoice(v: VoiceStage, vault: set<Ref>)
    ensures v.ref.None? ==> NewVoice(v) == {} && vault + NewVoice(v) == vault
    ensures v.ref.Some? ==> NewVoice(v) == {v.ref.value}
  {}

  lemma GuardedReads(w: World)
    requires Guarded(w)
    ensures w.file.Some? ==> Valid(w.file.value.draft)
    ensures SoundStore(w.file)
  {}

  lemma NewIsNoEvidence(s: Option<Stored>, v: VoiceStage)
    requires NewVoice(v) !! OwnedBy(s)
    ensures forall p :: NewVoice(v) !! EvidenceBy(s, p)
  {
    if s.Some? {
      OwnsQueued(s.value.draft);
    }
    AllEvidenceIs(s);
    hide Owned, EvidenceBy, Evidence;
  }

  lemma VoiceConditions(w: World, v: VoiceStage, x: Attempt)
    ensures var file, record := VoiceFile(w, v, x), VoiceRecord(v, x);
            && (ReachesRecord(w, v, x) ==>
                v.ref.Some? ==> Answer(w.file, VoiceReserve(v, x)).Ok? && x.reserve == Done && x.write == Done)
            && (VoiceRecordLands(w, v, x) <==>
                ReachesRecord(w, v, x) && Answer(file, record).Ok? && x.record != Refused)
            && (Unguarded(w, v, x) <==>
                VoiceRecordLands(w, v, x) && file.Some? && !Safe(file.value.draft, RecordVoice(v)))
            && (LosesVoiceSecret(w, v, x) <==>
                VoiceRecordLands(w, v, x) && x.record == Lost && v.ref.Some? && x.deletion != Refused)
            && record.fault == x.record && record.Request? && record.op == RecordVoice(v)
  {
    hide Answer, After, Safe;
  }

  lemma VoiceRecordCareful(w: World, v: VoiceStage, x: Attempt)
    requires w.file.Some? && Safe(w.file.value.draft, RecordVoice(v))
    ensures Careful(w.file, VoiceRecord(v, x)) && Harmless(w, VoiceRecord(v, x))
  {
    hide Safe;
  }

  lemma VoiceRecordKeeps(w: World, v: VoiceStage, x: Attempt)
    requires Guarded(w) && NewVoice(v) !! OwnedBy(w.file) && ReachesRecord(w, v, x)
    requires SameStoredEvidence(w.file, VoiceFile(w, v, x)) && Guarded(World(VoiceFile(w, v, x), w.vault))
    requires v.ref.Some? ==> Guarded(World(VoiceFile(w, v, x), w.vault + NewVoice(v)))
    requires forall p :: NewVoice(v) !! EvidenceBy(w.file, p)
    ensures var t := AfterVoiceProbe(w, v, x);
            && (t.file.Some? && !Valid(t.file.value.draft) <==> Unguarded(w, v, x))
            && (!Unguarded(w, v, x) ==>
                  && Guarded(t)
                  && (Kept(Voices, w) ==> (Kept(Voices, t) <==> !LosesVoiceSecret(w, v, x)))
                  && forall p :: p != Voices ==> (Kept(p, t) <==> Kept(p, w)))
  {
    hide *;
    VoiceProbeIs(w, v, x);
    VoiceConditions(w, v, x);
    NoVoice(v, w.vault);
    var file, record, t := VoiceFile(w, v, x), VoiceRecord(v, x), AfterVoiceProbe(w, v, x);
    var held := World(file, w.vault + NewVoice(v));
    var recorded := World(After(file, record), held.vault);
    SameRefs(w.file, file);
    RefusedStays(file, record);
    GuardedReads(World(file, w.vault));
    if VoiceRecordLands(w, v, x) {
      VoiceRecordFacts(file, v, x);
      if Safe(file.value.draft, RecordVoice(v)) {
        VoiceRecordCareful(held, v, x);
        CallGuards(held, record);
      }
    }
    if Unguarded(w, v, x) {
      if v.ref.Some? {
        StaysRefused(recorded, StageLease(v), x);
      }
    } else {
      if v.ref.Some? {
        StageLeaseRef(v);
        DiscardGuards(Voices, recorded, StageLease(v), x.deletion, x.ack, x.retire);
        DeletedIs(held.vault, v.ref.value, x.deletion);
        SameRefs(recorded.file, Discarded(Voices, recorded, StageLease(v), x.deletion, x.ack, x.retire).file);
      }
      GuardedReads(t);
      forall p
        ensures p != Voices ==> (Kept(p, t) <==> Kept(p, w))
        ensures p == Voices && Kept(p, w) ==> (Kept(p, t) <==> !LosesVoiceSecret(w, v, x))
      {
        KeptIs(p, t);
        KeptIs(p, w);
      }
    }
  }

  lemma StaysRefused(w: World, l: Lease, x: Attempt)
    requires w.file.Some? && !Valid(w.file.value.draft)
    ensures Discarded(Voices, w, l, x.deletion, x.ack, x.retire).file == w.file
  {
    RefusedStays(w.file, Told(AckOp(Voices, l, true), x.ack));
    hide After, Valid, Deleted;
  }

  /** The same for the whole call, with the sweep that follows it. */
  lemma VoiceProbeCallKeepsSecretsExactly(w: World, v: VoiceStage, x: Attempt, deletions: nat -> Fault,
                                          acks: nat -> Fault)
    requires Guarded(w) && NewVoice(v) !! OwnedBy(w.file)
    ensures var t := Swept(Voices, AfterVoiceProbe(w, v, x), deletions, acks);
            && (t.file.Some? && !Valid(t.file.value.draft) <==> Unguarded(w, v, x))
            && (!Unguarded(w, v, x) ==>
                  && Guarded(t)
                  && (Kept(Voices, w) ==> (Kept(Voices, t) <==> !LosesVoiceSecret(w, v, x)))
                  && forall p :: p != Voices ==> (Kept(p, t) <==> Kept(p, w)))
  {
    hide *;
    var u := AfterVoiceProbe(w, v, x);
    VoiceProbeKeepsSecretsExactly(w, v, x);
    SweptIs(Voices, u, deletions, acks);
    if !Unguarded(w, v, x) {
      SweepGuards(Voices, u, deletions, acks);
      GuardedReads(Swept(Voices, u, deletions, acks));
    }
  }

  // What a voice probe leaves

  /** The draft of a recorded track: the track is what was probed, what it replaces is queued
      for cleanup, and the second track completes the step. */
  function VoiceAdvanced(d: Draft, v: VoiceStage): Draft {
    var asr := if v.tts then d.asr else Some(Track(v.ref, v.details));
    var tts := if v.tts then Some(Track(v.ref, v.details)) else d.tts;
    d.(revision := d.revision + 1, step := if asr.Some? && tts.Some? then Map else Voice, asr := asr, tts := tts,
       latencies := Some(Latencies(asr.Some?, tts.Some?)),
       voices := Pending(d.voices.cleanup + TrackLease(if v.tts then d.tts else d.asr), d.voices.staging))
  }

  lemma VoiceHandsOut(w: World, v: VoiceStage, x: Attempt)
    requires SoundStore(w.file) && v.ref.Some? && Reserves(w, v, x)
    ensures w.file.Some?
    ensures var s, d := w.file.value, w.file.value.draft;
            VoiceFile(w, v, x)
            == Some(s.(draft := d.(voices := Pending(d.voices.cleanup, d.voices.staging + [StageLease(v)]))))
  {
    hide Sound, Valid, Perform, Admits, Holds;
    CallsExactly(w.file, VoiceReserve(v, x));
  }

  lemma LastGoesOut(ls: seq<Lease>, l: Lease, q: seq<Lease>)
    requires Distinct(ls + [l]) && OneOut(ls + [l], q, l)
    ensures q == ls
  {
    hide Distinct;
    assert (ls + [l])[|ls|] == l;
    assert l in ls + [l] && Same(l, l);
    var i :| 0 <= i < |ls + [l]| && Same((ls + [l])[i], l) && q == (ls + [l])[..i] + (ls + [l])[i + 1..];
    OnlyThere(ls + [l], i, |ls|);
  }

  lemma VoiceRecordAdvances(s: Option<Stored>, d: Draft, v: VoiceStage, x: Attempt)
    requires SoundStore(s) && s.Some? && Answer(s, VoiceRecord(v, x)).Ok? && x.record == Done
    requires s.value.draft
             == d.(voices := Pending(d.voices.cleanup, d.voices.staging + if v.ref.Some? then [StageLease(v)] else []))
    ensures After(s, VoiceRecord(v, x)) == Some(s.value.(draft := VoiceAdvanced(d, v)))
  {
    hide Sound, Valid, Perform, Admits, Holds, OneOut, Distinct, TrackLease;
    CallsExactly(s, VoiceRecord(v, x));
    DistinctStaging(s.value.draft);
    var e := After(s, VoiceRecord(v, x)).value.draft;
    if v.ref.Some? {
      LastGoesOut(d.voices.staging, StageLease(v), e.voices.staging);
    } else {
      NoneMore(d);
    }
    assert e.voices.staging == d.voices.staging;
    assert e == VoiceAdvanced(d, v);
  }

  lemma LastMovesOut(p: Pending, l: Lease, q: Pending, deletion: Fault, ack: Fault, retire: Fault)
    requires Dropped(Voices, Pending(p.cleanup, p.staging + [l]), q, l, deletion, ack, retire)
    requires Distinct(p.staging + [l])
    ensures deletion == Done && ack != Refused ==> q == p
    ensures !(deletion == Done && ack != Refused) ==> q == Pending(p.cleanup, p.staging + [l])
  {
    if deletion == Done && ack != Refused {
      LastGoesOut(p.staging, l, q.staging);
    }
    hide OneOut, Distinct;
  }

  /** What a reserved voice probe leaves. Recorded, the draft holds the track exactly as it was
      probed, with its secret in the vault and nothing handed out for it; not passed, its
      secret goes as the delete does, and its lease goes with the acknowledgement or stays
      handed out. Everything else of the draft is as it was. */
  lemma VoiceProbesExactly(w: World, v: VoiceStage, x: Attempt)
    requires Guarded(w) && NewVoice(v) !! OwnedBy(w.file) && AtStep(Voices, w.file, x) && Reserves(w, v, x)
    ensures var s := w.file.value;
            var d := s.draft;
            var t := AfterVoiceProbe(w, v, x);
            && (VoiceIsRecorded(w, v, x) ==>
                  t == World(Some(s.(draft := VoiceAdvanced(d, v))), w.vault + NewVoice(v)))
            && (!ReachesRecord(w, v, x) ==>
                  && (v.ref.None? || (x.deletion == Done && x.ack != Refused) ==> t.file == w.file)
                  && (v.ref.Some? && !(x.deletion == Done && x.ack != Refused) ==>
                        t.file == Some(s.(draft := d.(voices := Pending(d.voices.cleanup,
                                                                        d.voices.staging + [StageLease(v)])))))
                  && t.vault == if v.ref.Some? && x.deletion == Refused && x.write != Refused
                                then w.vault + {v.ref.value} else w.vault)
  {
    hide *;
    InsideIs(w.file, x);
    GuardIs(w);
    VoiceProbeIs(w, v, x);
    VoiceReserveFacts(w, v, x);
    VoiceCallIs(w, v, x);
    var file := VoiceFile(w, v, x);
    GuardIs(World(file, w.vault));
    var d := w.file.value.draft;
    if v.ref.Some? {
      VoiceHandsOut(w, v, x);
      StageLeaseRef(v);
    } else {
      NoneMore(d);
    }
    if VoiceIsRecorded(w, v, x) {
      VoiceRecordAdvances(file, d, v, x);
    }
    if !ReachesRecord(w, v, x) && v.ref.Some? {
      var held := World(file, if x.write == Refused then w.vault else w.vault + NewVoice(v));
      DiscardsExactly(Voices, held, StageLease(v), x.deletion, x.ack, x.retire);
      DistinctStaging(file.value.draft);
      var q := Queues(Discarded(Voices, held, StageLease(v), x.deletion, x.ack, x.retire).file.value.draft, Voices);
      VoiceQueuesAre(d, Pending(d.voices.cleanup, d.voices.staging + [StageLease(v)]), q);
      LastMovesOut(d.voices, StageLease(v), q, x.deletion, x.ack, x.retire);
    }
  }

  lemma InsideIs(s: Option<Stored>, x: Attempt)
    requires AtStep(Voices, s, x)
    ensures s.Some?
  {}

  lemma NoneMore(d: Draft)
    ensures d.(voices := Pending(d.voices.cleanup, d.voices.staging + [])) == d
  {
    assert d.voices.staging + [] == d.voices.staging;
  }

  lemma VoiceQueuesAre(d: Draft, p: Pending, q: Pending)
    ensures Queues(d.(voices := p), Voices) == p && WithQueues(d.(voices := p), Voices, q) == d.(voices := q)
    ensures d.(voices := d.voices) == d
  {}

  lemma VoiceCallIs(w: World, v: VoiceStage, x: Attempt)
    ensures Reserves(w, v, x) <==> (v.ref.Some? ==> Answer(w.file, VoiceReserve(v, x)).Ok? && x.reserve == Done)
    ensures VoiceIsRecorded(w, v, x) <==>
              ReachesRecord(w, v, x) && Answer(VoiceFile(w, v, x), VoiceRecord(v, x)).Ok? && x.record == Done
    ensures v.ref.None? ==> VoiceFile(w, v, x) == w.file && NewVoice(v) == {}
    ensures VoiceIsRecorded(w, v, x) && v.ref.Some? ==> x.write == Done
  {
    hide Answer, After;
  }
}
