/** The setup controller: it drives the draft store and the vault, one effect after the
    other, so that a setup secret is always owned by the draft. */
module SetupControllers {
  import opened Wrappers
  import opened SetupDrafts
  import opened SetupRuns
  import opened SetupProgress
  import opened SetupContents

  const MAX_SWEEP_ATTEMPTS := 4

  // -------------------------------------------------------------------------
  // The store
  // -------------------------------------------------------------------------

  /** Every operation is one load, check, compute, write under the store's own lock. */
  class SetupDraftStore {
    var file: Option<Stored>

    constructor ()
      ensures file == None
    {
      file := None;
    }

    method Load() returns (r: Result<Option<Stored>>)
      ensures r == if file.Some? && !Valid(file.value.draft) then Err(Unreadable) else Ok(file)
    {
      if file.Some? && !Valid(file.value.draft) {
        return Err(Unreadable);
      }
      return Ok(file);
    }

    method Write(next: Stored, fault: Fault) returns (ok: bool)
      modifies this
      ensures file == if fault == Refused then old(file) else Some(next)
      ensures ok <==> fault == Done
    {
      if fault != Refused {
        file := Some(next);
      }
      return fault == Done;
    }

    method Serve(c: Call) returns (ok: bool)
      modifies this
      ensures file == After(old(file), c)
      ensures ok <==> Answer(old(file), c).Ok? && c.fault == Done
    {
      var loaded := Load();
      if loaded.Err? {
        return false;
      }
      var current := loaded.value;
      match c {
        case Establish(token, expires, now, fault) =>
          if expires <= now {
            return false;
          }
          ok := Write(Stored(token, expires, if current.Some? then current.value.draft else FirstDraft), fault);
        case Request(op, token, revision, now, fault) =>
          if current.None? {
            return false;
          }
          if NeedsSession(op) {
            if now >= current.value.expires || token != current.value.token {
              return false;
            }
            if revision != current.value.draft.revision {
              return false;
            }
          }
          var next := Perform(current.value.draft, op);
          if next.Err? {
            return false;
          }
          ok := Write(Stored(current.value.token, current.value.expires, next.value), fault);
      }
    }
  }

  // -------------------------------------------------------------------------
  // What the controller does to the draft and the vault
  // -------------------------------------------------------------------------

  datatype World = World(file: Option<Stored>, vault: set<Ref>)

  function Told(op: Op, fault: Fault): Call {
    Request(op, 0, 0, 0, fault)
  }

  function Deleted(vault: set<Ref>, r: Ref, f: Fault): set<Ref> {
    if f == Refused then vault else vault - {r}
  }

  function RetireOp(o: Party, l: Lease): Op
    requires o != Voices
  {
    if o == Models then RetireModel(l) else RetireBridge(l)
  }

  /** Deleting and acknowledging a staged lease. A model or bridge lease that could not be
      acknowledged is handed to the cleanup queue; a voice lease stays handed out. */
  function Discarded(o: Party, w: World, l: Lease, deletion: Fault, ack: Fault, retire: Fault): World {
    var vault := Deleted(w.vault, l.ref, deletion);
    var call := Told(AckOp(o, l, true), ack);
    var file := if deletion == Done then After(w.file, call) else w.file;
    if o == Voices || (deletion == Done && Answer(w.file, call).Ok? && ack == Done) then World(file, vault)
    else World(After(file, Told(RetireOp(o, l), retire)), vault)
  }

  function SweptList(o: Party, w: World, pending: seq<Lease>, deletions: nat -> Fault, acks: nat -> Fault,
                     i: nat): World
    decreases |pending|
  {
    if pending == [] then w
    else
      var l := pending[0];
      var file := if deletions(i) == Done then After(w.file, Told(AckOp(o, l, false), acks(i))) else w.file;
      SweptList(o, World(file, Deleted(w.vault, l.ref, deletions(i))), pending[1..], deletions, acks, i + 1)
  }

  function FirstFew(ls: seq<Lease>): seq<Lease> {
    if |ls| < MAX_SWEEP_ATTEMPTS then ls else ls[..MAX_SWEEP_ATTEMPTS]
  }

  /** One bounded pass over what an owner has queued, unless the draft cannot be read. */
  function Swept(o: Party, w: World, deletions: nat -> Fault, acks: nat -> Fault): World {
    if w.file.None? || !Valid(w.file.value.draft) then w
    else SweptList(o, w, FirstFew(Queues(w.file.value.draft, o).cleanup), deletions, acks, 0)
  }

  // -------------------------------------------------------------------------
  // What a sweep and a discard leave, exactly
  // -------------------------------------------------------------------------

  function WithCleanup(d: Draft, o: Party, ls: seq<Lease>): Draft {
    WithQueues(d, o, Pending(ls, Queues(d, o).staging))
  }

  /** The lease itself, if its delete or acknowledgement fails. */
  function Stays(l: Lease, deletion: Fault, ack: Fault): seq<Lease> {
    if deletion == Done && ack != Refused then [] else [l]
  }

  /** Of the leases that a pass tries, those whose delete or acknowledgement fails, in order. */
  function StillQueued(tried: seq<Lease>, deletions: nat -> Fault, acks: nat -> Fault, i: nat): seq<Lease>
    decreases |tried|
  {
    if tried == [] then []
    else Stays(tried[0], deletions(i), acks(i)) + StillQueued(tried[1..], deletions, acks, i + 1)
  }

  /** The secrets whose delete reaches the vault, whatever it reports. */
  function Removed(tried: seq<Lease>, deletions: nat -> Fault, i: nat): set<Ref> {
    set j | 0 <= j < |tried| && deletions(i + j) != Refused :: tried[j].ref
  }

  lemma {:induction false} MiddleGoes(a: seq<Lease>, l: Lease, b: seq<Lease>)
    requires Distinct(a + [l] + b)
    ensures Without(a + [l] + b, l) == a + b
  {
    hide Without, Distinct;
    var ls := a + [l] + b;
    assert ls[|a|] == l;
    TakesOneOut(ls, l);
    assert l in ls && Same(l, l);
    var i :| 0 <= i < |ls| && Same(ls[i], l) && Without(ls, l) == ls[..i] + ls[i + 1..];
    OnlyThere(ls, i, |a|);
    assert ls[..|a|] == a && ls[|a| + 1..] == b;
  }

  lemma OnlyThere(ls: seq<Lease>, i: nat, j: nat)
    requires Distinct(ls) && i < |ls| && j < |ls| && ls[i].ref == ls[j].ref
    ensures i == j
  {}

  lemma AckCleans(d: Draft, o: Party, a: seq<Lease>, l: Lease, b: seq<Lease>)
    requires Sound(d) && Queues(d, o).cleanup == a + [l] + b
    ensures var e := WithCleanup(d, o, a + b); Perform(d, AckOp(o, l, false)) == Ok(e) && Sound(e)
  {
    hide Sound, Without, Perform;
    QueuesAreDistinct(d, o);
    MiddleGoes(a, l, b);
    AckIs(d, o, l, false);
    WriteReloadsExactly(d, AckOp(o, l, false), WithCleanup(d, o, a + b));
  }

  lemma AckIs(d: Draft, o: Party, l: Lease, staged: bool)
    ensures Perform(d, AckOp(o, l, staged)) == Ok(WithQueues(d, o, AckPending(Queues(d, o), l, staged)))
    ensures Fresh(d, AckOp(o, l, staged)) && Safe(d, AckOp(o, l, staged))
    ensures AckPending(Queues(d, o), l, false) == Pending(Without(Queues(d, o).cleanup, l), Queues(d, o).staging)
  {
    hide Without;
  }

  /** The store performs its own upkeep without a session. */
  lemma UpkeepIs(s: Option<Stored>, op: Op, fault: Fault, e: Draft)
    requires s.Some? && Valid(s.value.draft) && Maintenance(op) && Perform(s.value.draft, op) == Ok(e)
    ensures Answer(s, Told(op, fault)) == Ok(s.value.(draft := e))
    ensures After(s, Told(op, fault)) == if fault == Refused then s else Some(s.value.(draft := e))
  {
    hide Valid, Perform;
  }

  lemma AcksAreUpkeep(o: Party, l: Lease, staged: bool)
    ensures Maintenance(AckOp(o, l, staged)) && (o != Voices ==> Maintenance(RetireOp(o, l)))
  {}

  lemma CleanupTwice(d: Draft, o: Party, ls: seq<Lease>, ks: seq<Lease>)
    ensures WithCleanup(WithCleanup(d, o, ls), o, ks) == WithCleanup(d, o, ks)
    ensures Queues(WithCleanup(d, o, ls), o).cleanup == ls
    ensures WithCleanup(d, o, Queues(d, o).cleanup) == d
  {}

  lemma RemovedSplits(tried: seq<Lease>, deletions: nat -> Fault, i: nat, vault: set<Ref>)
    requires tried != []
    ensures vault - Removed(tried, deletions, i)
            == Deleted(vault, tried[0].ref, deletions(i)) - Removed(tried[1..], deletions, i + 1)
  {
    var rest := tried[1..];
    forall r
      ensures r in Removed(tried, deletions, i) <==>
              (r == tried[0].ref && deletions(i) != Refused) || r in Removed(rest, deletions, i + 1)
    {
      if r in Removed(tried, deletions, i) {
        var j :| 0 <= j < |tried| && deletions(i + j) != Refused && tried[j].ref == r;
        if j > 0 {
          assert rest[j - 1].ref == r && deletions(i + 1 + (j - 1)) != Refused;
        }
      }
      if r in Removed(rest, deletions, i + 1) {
        var j :| 0 <= j < |rest| && deletions(i + 1 + j) != Refused && rest[j].ref == r;
        assert tried[j + 1].ref == r && deletions(i + (j + 1)) != Refused;
      }
      assert deletions(i + 0) == deletions(i);
    }
  }

  lemma SweepsOne(o: Party, file: Option<Stored>, a: seq<Lease>, l: Lease, b: seq<Lease>, deletion: Fault, ack: Fault)
    requires file.Some? && Sound(file.value.draft) && Queues(file.value.draft, o).cleanup == a + [l] + b
    ensures var e := WithCleanup(file.value.draft, o, a + Stays(l, deletion, ack) + b);
            && (if deletion == Done then After(file, Told(AckOp(o, l, false), ack)) else file)
               == Some(file.value.(draft := e))
            && Sound(e) && Queues(e, o).cleanup == a + Stays(l, deletion, ack) + b
  {
    hide Sound, Valid, Perform, After, Answer, Told, Queues, WithCleanup;
    var d := file.value.draft;
    var kept := a + Stays(l, deletion, ack) + b;
    CleanupTwice(d, o, kept, []);
    if deletion == Done && ack != Refused {
      assert kept == a + b;
      AckCleans(d, o, a, l, b);
      SoundIsValid(d);
      AcksAreUpkeep(o, l, false);
      UpkeepIs(file, AckOp(o, l, false), ack, WithCleanup(d, o, a + b));
    } else if deletion == Done {
      RefusedUpkeep(file, AckOp(o, l, false));
    }
  }

  lemma StillQueuedIs(tried: seq<Lease>, deletions: nat -> Fault, acks: nat -> Fault, i: nat, a: seq<Lease>,
                      b: seq<Lease>)
    requires tried != []
    ensures a + StillQueued(tried, deletions, acks, i) + b
            == a + Stays(tried[0], deletions(i), acks(i)) + StillQueued(tried[1..], deletions, acks, i + 1) + b
    ensures a + tried + b == a + [tried[0]] + (tried[1..] + b)
    ensures forall c :: a + c + tried[1..] + b == a + c + (tried[1..] + b)
  {
    hide StillQueued, Stays;
    StillQueuedStep(tried, deletions, acks, i);
    Regrouped(a, Stays(tried[0], deletions(i), acks(i)), StillQueued(tried[1..], deletions, acks, i + 1), b);
    Regrouped(a, [tried[0]], tried[1..], b);
    assert tried == [tried[0]] + tried[1..];
    forall c
      ensures a + c + tried[1..] + b == a + c + (tried[1..] + b)
    {
      Regrouped(a, c, tried[1..], b);
    }
  }

  lemma StillQueuedStep(tried: seq<Lease>, deletions: nat -> Fault, acks: nat -> Fault, i: nat)
    requires tried != []
    ensures StillQueued(tried, deletions, acks, i)
            == Stays(tried[0], deletions(i), acks(i)) + StillQueued(tried[1..], deletions, acks, i + 1)
  {}

  lemma Regrouped(a: seq<Lease>, x: seq<Lease>, y: seq<Lease>, b: seq<Lease>)
    ensures a + (x + y) + b == a + x + y + b && a + x + y + b == a + x + (y + b)
  {}

  lemma {:induction false} SweptListExactly(o: Party, w: World, a: seq<Lease>, tried: seq<Lease>, b: seq<Lease>,
                                            deletions: nat -> Fault, acks: nat -> Fault, i: nat)
    requires w.file.Some? && Sound(w.file.value.draft) && Queues(w.file.value.draft, o).cleanup == a + tried + b
    ensures var d := w.file.value.draft;
            SweptList(o, w, tried, deletions, acks, i)
            == World(Some(w.file.value.(draft := WithCleanup(d, o, a + StillQueued(tried, deletions, acks, i) + b))),
                     w.vault - Removed(tried, deletions, i))
    decreases |tried|
  {
    hide Sound, After, Told, Queues, WithCleanup, Deleted, Removed, StillQueued, Stays, AckOp;
    var s := w.file.value;
    if tried == [] {
      assert a + tried + b == a + StillQueued(tried, deletions, acks, i) + b by {
        NoneTried(deletions, acks, i);
      }
      CleanupTwice(s.draft, o, a + tried + b, []);
      RemovedNone(deletions, i);
    } else {
      var l, rest := tried[0], tried[1..];
      var kept := a + Stays(l, deletions(i), acks(i));
      RemovedSplits(tried, deletions, i, w.vault);
      StillQueuedIs(tried, deletions, acks, i, a, b);
      SweepsOne(o, w.file, a, l, rest + b, deletions(i), acks(i));
      var e := WithCleanup(s.draft, o, kept + (rest + b));
      SweptListExactly(o, World(Some(s.(draft := e)), Deleted(w.vault, l.ref, deletions(i))), kept, rest, b, deletions,
                       acks, i + 1);
      CleanupTwice(s.draft, o, kept + (rest + b), kept + StillQueued(rest, deletions, acks, i + 1) + b);
    }
  }

  lemma NoneTried(deletions: nat -> Fault, acks: nat -> Fault, i: nat)
    ensures StillQueued([], deletions, acks, i) == []
  {}

  lemma RemovedNone(deletions: nat -> Fault, i: nat)
    ensures Removed([], deletions, i) == {}
  {}

  lemma RefusedUpkeep(s: Option<Stored>, op: Op)
    ensures After(s, Told(op, Refused)) == s
  {
    hide Answer;
  }

  /** Under any faults, a pass over a sound draft tries the first four queued leases, or all
      of fewer: those whose delete or acknowledgement fails stay queued, in order, together
      with the ones it has not tried; the secrets that the deletes reach are gone; and
      nothing else changes. */
  lemma SweepsExactly(o: Party, w: World, deletions: nat -> Fault, acks: nat -> Fault)
    requires w.file.Some? && Sound(w.file.value.draft)
    ensures var d := w.file.value.draft;
            var q := Queues(d, o).cleanup;
            var n := if |q| < 4 then |q| else 4;
            Swept(o, w, deletions, acks)
            == World(Some(w.file.value.(draft := WithCleanup(d, o, StillQueued(q[..n], deletions, acks, 0) + q[n..]))),
                     w.vault - Removed(q[..n], deletions, 0))
  {
    hide Sound, Valid, Removed, SweptList, StillQueued, WithCleanup;
    var d := w.file.value.draft;
    SoundIsValid(d);
    var q := Queues(d, o).cleanup;
    var n := if |q| < 4 then |q| else 4;
    assert FirstFew(q) == q[..n];
    assert q == [] + q[..n] + q[n..];
    SweptListExactly(o, w, [], q[..n], q[n..], deletions, acks, 0);
    var left := StillQueued(q[..n], deletions, acks, 0);
    assert [] + left + q[n..] == left + q[n..];
  }

  lemma {:induction false} NoneStaysQueued(tried: seq<Lease>, deletions: nat -> Fault, acks: nat -> Fault, i: nat)
    requires forall j :: i <= j < i + |tried| ==> deletions(j) == Done && acks(j) == Done
    ensures StillQueued(tried, deletions, acks, i) == [] && Removed(tried, deletions, i) == Refs(tried)
    decreases |tried|
  {
    if tried != [] {
      NoneStaysQueued(tried[1..], deletions, acks, i + 1);
    }
    forall r | r in Refs(tried)
      ensures r in Removed(tried, deletions, i)
    {
      var l :| l in tried && l.ref == r;
      var j :| 0 <= j < |tried| && tried[j] == l;
      assert deletions(i + j) == Done;
    }
  }

  lemma FaultlessSweep(q: seq<Lease>, deletions: nat -> Fault, acks: nat -> Fault)
    ensures var n := if |q| < 4 then |q| else 4;
            (forall i :: 0 <= i < 4 ==> deletions(i) == Done && acks(i) == Done) ==>
              && StillQueued(q[..n], deletions, acks, 0) + q[n..] == q[n..]
              && Removed(q[..n], deletions, 0) == Refs(q[..n])
  {
    if forall i :: 0 <= i < 4 ==> deletions(i) == Done && acks(i) == Done {
      NoneStaysQueued(q[..if |q| < 4 then |q| else 4], deletions, acks, 0);
    }
  }

  lemma StagedAck(d: Draft, o: Party, l: Lease)
    requires Sound(d)
    ensures var q := AckPending(Queues(d, o), l, true);
            && Perform(d, AckOp(o, l, true)) == Ok(WithQueues(d, o, q)) && Acked(Queues(d, o), q, l, true)
            && Sound(WithQueues(d, o, q)) && !Holds(q.staging, l)
  {
    hide Sound, ValidPending, Acked, Perform, Without;
    AckIs(d, o, l, true);
    SoundParts(d);
    match o {
      case Models => AcksOne(d.models, l, true, {ModelKey}, 1, ModelRefs(d));
      case Bridges => AcksOne(d.bridges, l, true, {BridgeKey}, 1, BridgeRefs(d));
      case Voices => AcksOne(d.voices, l, true, {AsrKey, TtsKey}, MAX_CLEANUPS, VoiceRefs(d));
    }
    WriteReloadsExactly(d, AckOp(o, l, true), WithQueues(d, o, AckPending(Queues(d, o), l, true)));
  }

  lemma StagedRetire(d: Draft, o: Party, l: Lease)
    requires Sound(d) && o != Voices
    ensures var r := RetirePending(Queues(d, o), l, if o == Models then ModelRef(d) else BridgeRef(d));
            && r.Ok? && Retired(Queues(d, o), r.value, l)
            && Perform(d, RetireOp(o, l)) == Ok(WithQueues(d, o, r.value))
  {
    hide Sound, ValidPending, Apart, Roomy, Retired, RetirePending;
    SoundParts(d);
    ActiveRef(d);
    if o == Models {
      RetiresOne(d.models, l, {ModelKey}, 1, ModelRef(d), ModelRefs(d));
    } else {
      RetiresOne(d.bridges, l, {BridgeKey}, 1, BridgeRef(d), BridgeRefs(d));
    }
  }

  /** What a discard makes of the queues of an owner. */
  ghost predicate Dropped(o: Party, p: Pending, q: Pending, l: Lease, deletion: Fault, ack: Fault, retire: Fault) {
    if deletion == Done && ack != Refused then Acked(p, q, l, true)
    else if o != Voices && retire != Refused then Retired(p, q, l)
    else q == p
  }

  lemma AckDrops(o: Party, w: World, l: Lease, deletion: Fault, ack: Fault, retire: Fault)
    requires w.file.Some? && Sound(w.file.value.draft) && deletion == Done && ack != Refused
    ensures var d := w.file.value.draft;
            var q := AckPending(Queues(d, o), l, true);
            && Acked(Queues(d, o), q, l, true)
            && Discarded(o, w, l, deletion, ack, retire)
               == World(Some(w.file.value.(draft := WithQueues(d, o, q))), w.vault - {l.ref})
  {
    hide Sound, Valid, Perform, Acked, AckPending, Holds, Answer, After, RetirePending, Told, Queues, WithQueues, AckOp;
    var s := w.file.value;
    var q := AckPending(Queues(s.draft, o), l, true);
    var e := WithQueues(s.draft, o, q);
    StagedAck(s.draft, o, l);
    SoundIsValid(s.draft);
    AcksAreUpkeep(o, l, true);
    UpkeepIs(w.file, AckOp(o, l, true), ack, e);
    if o != Voices {
      SoundIsValid(e);
      StagedRetire(e, o, l);
      QueuesTwice(s.draft, o, q, q);
      NotHeldStays(q, l, if o == Models then ModelRef(e) else BridgeRef(e));
      UpkeepIs(Some(s.(draft := e)), RetireOp(o, l), retire, e);
    }
  }

  lemma NotHeldStays(q: Pending, l: Lease, active: Option<Ref>)
    requires !Holds(q.staging, l)
    ensures RetirePending(q, l, active) == Ok(q)
  {}

  lemma RetireDrops(o: Party, w: World, l: Lease, deletion: Fault, ack: Fault, retire: Fault)
    requires w.file.Some? && Sound(w.file.value.draft) && !(deletion == Done && ack != Refused)
    ensures var d := w.file.value.draft;
            var t := Discarded(o, w, l, deletion, ack, retire);
            && t.vault == Deleted(w.vault, l.ref, deletion)
            && (o == Voices || retire == Refused ==> t.file == w.file)
            && (o != Voices && retire != Refused ==>
                  var q := RetirePending(Queues(d, o), l, if o == Models then ModelRef(d) else BridgeRef(d));
                  && q.Ok? && Retired(Queues(d, o), q.value, l)
                  && t.file == Some(w.file.value.(draft := WithQueues(d, o, q.value))))
  {
    hide Sound, Valid, Perform, Answer, After, RetirePending, Retired, Queues, WithQueues, AckOp, Told;
    var d := w.file.value.draft;
    SoundIsValid(d);
    AcksAreUpkeep(o, l, true);
    RefusedUpkeep(w.file, AckOp(o, l, true));
    if o != Voices {
      StagedRetire(d, o, l);
      RefusedUpkeep(w.file, RetireOp(o, l));
      var q := RetirePending(Queues(d, o), l, if o == Models then ModelRef(d) else BridgeRef(d));
      UpkeepIs(w.file, RetireOp(o, l), retire, WithQueues(d, o, q.value));
    }
  }

  /** Under any faults, a discard takes the lease from what is handed out if its delete and
      its acknowledgement come through, moves a model or bridge lease to the cleanup queue if
      they do not and that does, and otherwise leaves the draft; its secret goes as the
      delete does; and nothing else changes. */
  lemma DiscardsExactly(o: Party, w: World, l: Lease, deletion: Fault, ack: Fault, retire: Fault)
    requires w.file.Some? && Sound(w.file.value.draft)
    ensures var t := Discarded(o, w, l, deletion, ack, retire);
            && t.file.Some?
            && var d, e := w.file.value.draft, t.file.value.draft;
            && Dropped(o, Queues(d, o), Queues(e, o), l, deletion, ack, retire)
            && t.file == Some(w.file.value.(draft := WithQueues(d, o, Queues(e, o))))
            && t.vault == if deletion == Refused then w.vault else w.vault - {l.ref}
  {
    hide Sound, Discarded, RetirePending, Retired, Acked, AckPending, Queues, WithQueues;
    var d := w.file.value.draft;
    QueuesTwice(d, o, Queues(d, o), Queues(d, o));
    if deletion == Done && ack != Refused {
      AckDrops(o, w, l, deletion, ack, retire);
      var q := AckPending(Queues(d, o), l, true);
      QueuesTwice(d, o, q, q);
    } else {
      RetireDrops(o, w, l, deletion, ack, retire);
      if o != Voices && retire != Refused {
        var q := RetirePending(Queues(d, o), l, if o == Models then ModelRef(d) else BridgeRef(d)).value;
        QueuesTwice(d, o, q, q);
      }
    }
  }

  /** What a pass meets. */
  datatype Pass = Pass(deletions: nat -> Fault, acks: nat -> Fault)

  /** The sweeps that follow a model or bridge probe: its own owner, then voice. */
  function SweptTwice(o: Party, w: World, own: Pass, voice: Pass): World {
    Swept(Voices, Swept(o, w, own.deletions, own.acks), voice.deletions, voice.acks)
  }

  /** The session of a request, the clock when it begins and when it records, what its effects
      meet and what its collaborators answer. */
  datatype Attempt = Attempt(token: nat, revision: nat, now: nat, later: nat, cancelledBefore: bool,
                             cancelledAfter: bool,
                             ready: bool,
                             reserve: Fault, write: Fault, record: Fault, deletion: Fault, ack: Fault, retire: Fault)

  function ReserveCall(o: Party, l: Lease, x: Attempt): Call
    requires o != Voices
  {
    Request(if o == Models then ReserveModel(l) else ReserveBridge(l), x.token, x.revision, x.now, x.reserve)
  }

  function RecordCall(o: Party, l: Lease, x: Attempt): Call
    requires o != Voices
  {
    Request(if o == Models then RecordModel(l) else RecordBridge(l), x.token, x.revision, x.later, x.record)
  }

  /** The secret was written and its probe succeeded before any cancellation. */
  predicate Passes(x: Attempt) {
    !x.cancelledBefore && x.write == Done && !x.cancelledAfter && x.ready
  }

  /** A probe of a model or a bridge: reserve, write, probe, record; every failure after
      the reservation discards the lease. */
  function AfterProbe(o: Party, w: World, l: Lease, x: Attempt): World
    requires o != Voices
  {
    var reserve := ReserveCall(o, l, x);
    var file := After(w.file, reserve);
    if !Answer(w.file, reserve).Ok? || x.reserve != Done then World(file, w.vault)
    else
      var held := World(file, if x.cancelledBefore || x.write == Refused then w.vault else w.vault + {l.ref});
      var record := RecordCall(o, l, x);
      if !Passes(x) then Discarded(o, held, l, x.deletion, x.ack, x.retire)
      else if Answer(file, record).Ok? && x.record == Done then World(After(file, record), held.vault)
      else Discarded(o, World(After(file, record), held.vault), l, x.deletion, x.ack, x.retire)
  }

  predicate Recorded(o: Party, w: World, l: Lease, x: Attempt)
    requires o != Voices
  {
    var reserve := ReserveCall(o, l, x);
    && Answer(w.file, reserve).Ok? && x.reserve == Done && Passes(x)
    && Answer(After(w.file, reserve), RecordCall(o, l, x)).Ok? && x.record == Done
  }

  // Voice tracks

  function VoiceReserve(v: VoiceStage, x: Attempt): Call {
    Request(ReserveVoice(v), x.token, x.revision, x.now, x.reserve)
  }

  function VoiceRecord(v: VoiceStage, x: Attempt): Call {
    Request(RecordVoice(v), x.token, x.revision, x.later, x.record)
  }

  /** The draft when the record is made. */
  function VoiceFile(w: World, v: VoiceStage, x: Attempt): Option<Stored> {
    if v.ref.None? then w.file else After(w.file, VoiceReserve(v, x))
  }

  /** Whatever has to precede the record of a track has worked. */
  predicate ReachesRecord(w: World, v: VoiceStage, x: Attempt) {
    && AtStep(Voices, w.file, x)
    && (v.ref.Some? ==> Answer(w.file, VoiceReserve(v, x)).Ok? && x.reserve == Done && x.write == Done)
    && !x.cancelledAfter && x.ready
  }

  /** A track with a credential has reserved its locator. */
  predicate Reserves(w: World, v: VoiceStage, x: Attempt) {
    v.ref.Some? ==> Answer(w.file, VoiceReserve(v, x)).Ok? && x.reserve == Done
  }

  predicate VoiceIsRecorded(w: World, v: VoiceStage, x: Attempt) {
    ReachesRecord(w, v, x) && Answer(VoiceFile(w, v, x), VoiceRecord(v, x)).Ok? && x.record == Done
  }

  /** A probe of a voice track. Only a track with a credential reserves, writes and has
      something to discard. */
  function AfterVoiceProbe(w: World, v: VoiceStage, x: Attempt): World {
    var record := VoiceRecord(v, x);
    if v.ref.None? then
      if AtStep(Voices, w.file, x) && !x.cancelledAfter && x.ready then World(After(w.file, record), w.vault) else w
    else
      var l := StageLease(v);
      var reserve := VoiceReserve(v, x);
      var file := After(w.file, reserve);
      if !Answer(w.file, reserve).Ok? || x.reserve != Done then World(file, w.vault)
      else
        var held := World(file, if x.write == Refused then w.vault else w.vault + {l.ref});
        if x.write != Done || x.cancelledAfter || !x.ready then Discarded(Voices, held, l, x.deletion, x.ack, x.retire)
        else if Answer(file, record).Ok? && x.record == Done then World(After(file, record), held.vault)
        else Discarded(Voices, World(After(file, record), held.vault), l, x.deletion, x.ack, x.retire)
  }

  datatype ProbeResult = Ready | Rejected | Conflicting | Unavailable | Thrown

  function StepOf(o: Party): Step {
    match o
    case Models => Model
    case Bridges => Bridge
    case Voices => Voice
  }

  predicate Readable(s: Option<Stored>) {
    s.Some? ==> Valid(s.value.draft)
  }

  /** The request names the stored session and the revision of a draft at its step. */
  predicate AtStep(o: Party, s: Option<Stored>, x: Attempt) {
    && s.Some? && InSession(s.value, x.token, x.now)
    && s.value.draft.step == StepOf(o) && s.value.draft.revision == x.revision
  }

  /** Why a probe ends before it prepares anything, if it does. */
  predicate Enters(o: Party, s: Option<Stored>, x: Attempt, r: Option<ProbeResult>) {
    match r
    case None => Readable(s) && AtStep(o, s, x)
    case Some(Thrown) => !Readable(s)
    case Some(Conflicting) => Readable(s) && !AtStep(o, s, x)
    case _ => false
  }

  /** A request that does not enter could not have reserved or recorded anything. */
  lemma OutsideNothingHappens(o: Party, s: Option<Stored>, x: Attempt, c: Call)
    requires c.Request? && c.token == x.token && c.revision == x.revision && c.now == x.now
    requires match o
             case Models => c.op.ReserveModel?
             case Bridges => c.op.ReserveBridge?
             case Voices => c.op.ReserveVoice?
    requires Answer(s, c).Ok?
    ensures Readable(s) && AtStep(o, s, x)
  {
    hide Valid, Holds;
  }

  lemma OutsideProbe(o: Party, w: World, l: Lease, x: Attempt)
    requires o != Voices && !(Readable(w.file) && AtStep(o, w.file, x))
    ensures AfterProbe(o, w, l, x) == w && !Recorded(o, w, l, x) && !Answer(w.file, ReserveCall(o, l, x)).Ok?
  {
    if Answer(w.file, ReserveCall(o, l, x)).Ok? {
      OutsideNothingHappens(o, w.file, x, ReserveCall(o, l, x));
    }
    hide Answer, Readable, AtStep;
  }

  lemma OutsideVoiceProbe(w: World, v: VoiceStage, x: Attempt)
    requires !(Readable(w.file) && AtStep(Voices, w.file, x))
    ensures AfterVoiceProbe(w, v, x) == w && !VoiceIsRecorded(w, v, x)
  {
    if v.ref.Some? && Answer(w.file, VoiceReserve(v, x)).Ok? {
      OutsideNothingHappens(Voices, w.file, x, VoiceReserve(v, x));
    }
    if !Readable(w.file) {
      UnreadableStays(w.file, VoiceRecord(v, x));
    }
    hide Answer, AtStep, Valid;
  }

  lemma UnreadableStays(s: Option<Stored>, c: Call)
    requires !Readable(s)
    ensures After(s, c) == s && !Answer(s, c).Ok?
  {
    hide Valid;
  }

  class SetupController {
    const drafts: SetupDraftStore
    var vault: set<Ref>

    constructor (drafts: SetupDraftStore)
      ensures this.drafts == drafts && vault == {}
    {
      this.drafts := drafts;
      vault := {};
    }

    function Now(): World
      reads this, drafts
    {
      World(drafts.file, vault)
    }

    method Delete(r: Ref, fault: Fault) returns (ok: bool)
      modifies this
      ensures vault == Deleted(old(vault), r, fault) && (ok <==> fault == Done)
    {
      if fault != Refused {
        vault := vault - {r};
      }
      ok := fault == Done;
    }

    /** Deletes and acknowledges one staged lease, or transfers it to the cleanup queue. */
    method DiscardStaged(o: Party, l: Lease, deletion: Fault, ack: Fault, retire: Fault)
      modifies this, drafts
      ensures Now() == Discarded(o, old(Now()), l, deletion, ack, retire)
    {
      hide Answer, After;
      var ok := Delete(l.ref, deletion);
      if ok {
        ok := drafts.Serve(Told(AckOp(o, l, true), ack));
      }
      if !ok && o != Voices {
        ok := drafts.Serve(Told(RetireOp(o, l), retire));
      }
    }

    /** One bounded pass over the retired credentials of one owner. */
    method SweepCleanup(o: Party, deletions: nat -> Fault, acks: nat -> Fault)
      modifies this, drafts
      ensures Now() == Swept(o, old(Now()), deletions, acks)
      ensures old(drafts.file).None? || !Valid(old(drafts.file).value.draft) ==> Now() == old(Now())
      ensures old(drafts.file).Some? && Sound(old(drafts.file).value.draft) ==>
                var s := old(drafts.file).value;
                var q := Queues(s.draft, o).cleanup;
                var n := if |q| < 4 then |q| else 4;
                && drafts.file == Some(s.(draft := WithCleanup(s.draft, o,
                                                               StillQueued(q[..n], deletions, acks, 0) + q[n..])))
                && vault == old(vault) - Removed(q[..n], deletions, 0)
                && ((forall i :: 0 <= i < 4 ==> deletions(i) == Done && acks(i) == Done) ==>
                      && drafts.file == Some(s.(draft := WithCleanup(s.draft, o, q[n..])))
                      && vault == old(vault) - Refs(q[..n]))
    {
      hide After, Valid, Sound, Removed, StillQueued, Refs;
      if drafts.file.Some? && Sound(drafts.file.value.draft) {
        SweepsExactly(o, Now(), deletions, acks);
        FaultlessSweep(Queues(drafts.file.value.draft, o).cleanup, deletions, acks);
      }
      var loaded := drafts.Load();
      if loaded.Err? || loaded.value.None? {
        return;
      }
      var pending := FirstFew(Queues(loaded.value.value.draft, o).cleanup);
      var i := 0;
      while i < |pending|
        invariant 0 <= i <= |pending|
        invariant SweptList(o, Now(), pending[i..], deletions, acks, i) == SweptList(o, old(Now()), pending, deletions,
                                                                                     acks, 0)
      {
        assert pending[i..][1..] == pending[i + 1..];
        var ok := Delete(pending[i].ref, deletions(i));
        if ok {
          ok := drafts.Serve(Told(AckOp(o, pending[i], false), acks(i)));
        }
        i := i + 1;
      }
    }

    /** The look at the session, the step and the revision that comes first. */
    method Enter(o: Party, x: Attempt) returns (r: Option<ProbeResult>)
      ensures Enters(o, drafts.file, x, r)
    {
      var loaded := drafts.Load();
      if loaded.Err? {
        return Some(Thrown);
      }
      var s := loaded.value;
      if s.None? || s.value.expires <= x.now || s.value.token != x.token
         || s.value.draft.step != StepOf(o) || s.value.draft.revision != x.revision {
        return Some(Conflicting);
      }
      return None;
    }

    /** Reserve, write, probe and record with a staged model or bridge credential. */
    method Execute(o: Party, l: Lease, x: Attempt) returns (r: ProbeResult)
      requires o != Voices
      modifies this, drafts
      ensures Now() == AfterProbe(o, old(Now()), l, x)
      ensures r == Ready <==> Recorded(o, old(Now()), l, x)
      ensures r == Unavailable <==>
              Answer(old(drafts.file), ReserveCall(o, l, x)).Ok? && x.reserve == Done && !Passes(x)
      ensures r == Ready || r == Unavailable || r == Conflicting
    {
      hide Answer, After, Discarded;
      var ok := drafts.Serve(ReserveCall(o, l, x));
      if !ok {
        return Conflicting;
      }
      if !x.cancelledBefore && x.write != Refused {
        vault := vault + {l.ref};
      }
      if !Passes(x) {
        DiscardStaged(o, l, x.deletion, x.ack, x.retire);
        return Unavailable;
      }
      ok := drafts.Serve(RecordCall(o, l, x));
      if !ok {
        DiscardStaged(o, l, x.deletion, x.ack, x.retire);
        return Conflicting;
      }
      return Ready;
    }

    /** Probing a model or a bridge: the preparation may reject the input and the staging may
        refuse, and neither has an effect; the sweeps always follow. */
    method Probe(o: Party, prepared: bool, staged: Option<Lease>, x: Attempt, own: Pass, voice: Pass)
      returns (r: ProbeResult)
      requires o != Voices
      modifies this, drafts
      ensures var w := old(Now());
              var u := if prepared && staged.Some? then AfterProbe(o, w, staged.value, x) else w;
              Now() == SweptTwice(o, u, own, voice)
      ensures var w := old(Now());
              var enters := Readable(w.file) && AtStep(o, w.file, x);
              && (r == Thrown <==> !Readable(w.file))
              && (r == Rejected <==> enters && !prepared)
              && (r == Ready <==> prepared && staged.Some? && Recorded(o, w, staged.value, x))
              && (r == Unavailable <==>
                  && prepared && staged.Some? && Answer(w.file, ReserveCall(o, staged.value, x)).Ok?
                                        && x.reserve == Done && !Passes(x))
    {
      hide Answer, After, Swept, AfterProbe, Recorded, Readable, AtStep, Passes;
      var refused := Enter(o, x);
      if refused.Some? {
        if staged.Some? {
          OutsideProbe(o, Now(), staged.value, x);
        }
        r := refused.value;
      } else if !prepared {
        r := Rejected;
      } else if staged.None? {
        r := Conflicting;
      } else {
        r := Execute(o, staged.value, x);
      }
      SweepCleanup(o, own.deletions, own.acks);
      SweepCleanup(Voices, voice.deletions, voice.acks);
    }

    /** Probing a model from what a user enters. */
    method ProbeModel(provider: Provider, modelId: string, nonce: string, baseUrl: string, x: Attempt,
                      own: Pass, voice: Pass)
      returns (r: ProbeResult)
      modifies this, drafts
      ensures var l := PreparedStage(provider, modelId, nonce, baseUrl);
              var w := old(Now());
              var u := if l.None? then w else AfterProbe(Models, w, l.value, x);
              && Now() == SweptTwice(Models, u, own, voice)
              && (r == Thrown <==> !Readable(w.file))
              && (r == Rejected <==> Readable(w.file) && AtStep(Models, w.file, x) && !GoodModelId(modelId))
              && (r == Ready <==> l.Some? && Recorded(Models, w, l.value, x))
              && (r == Unavailable <==> && l.Some? && Answer(w.file, ReserveCall(Models, l.value, x)).Ok?
                                        && x.reserve == Done && !Passes(x))
    {
      hide Answer, After, Swept, AfterProbe, Recorded, Readable, AtStep, Passes;
      var l := PreparedStage(provider, modelId, nonce, baseUrl);
      r := Probe(Models, GoodModelId(modelId), l, x, own, voice);
    }

    /** Probing a voice track; `None` is a track that the preparation rejects. */
    method ProbeVoice(prepared: Option<VoiceStage>, x: Attempt, deletions: nat -> Fault, acks: nat -> Fault)
      returns (r: ProbeResult)
      modifies this, drafts
      ensures var w := old(Now());
              Now() == Swept(Voices, if prepared.Some? then AfterVoiceProbe(w, prepared.value, x) else w, deletions,
                             acks)
      ensures var w := old(Now());
              var enters := Readable(w.file) && AtStep(Voices, w.file, x);
              && (r == Thrown <==> !Readable(w.file))
              && (r == Rejected <==> enters && prepared.None?)
              && (r == Ready <==> prepared.Some? && VoiceIsRecorded(w, prepared.value, x))
              && (r == Unavailable <==> prepared.Some? && enters && Reserves(w, prepared.value, x)
                                        && !ReachesRecord(w, prepared.value, x))
    {
      hide Swept, AfterVoiceProbe, VoiceIsRecorded, Readable, AtStep, Reserves, ReachesRecord;
      var refused := Enter(Voices, x);
      if refused.Some? {
        if prepared.Some? {
          OutsideVoiceProbe(Now(), prepared.value, x);
        }
        r := refused.value;
      } else if prepared.None? {
        r := Rejected;
      } else {
        r := ExecuteVoice(prepared.value, x);
      }
      SweepCleanup(Voices, deletions, acks);
    }

    /** Reserve and write if the track has a credential, probe, record. */
    method ExecuteVoice(v: VoiceStage, x: Attempt) returns (r: ProbeResult)
      requires Readable(drafts.file) && AtStep(Voices, drafts.file, x)
      modifies this, drafts
      ensures Now() == AfterVoiceProbe(old(Now()), v, x)
      ensures r == Ready <==> VoiceIsRecorded(old(Now()), v, x)
      ensures r == Unavailable <==> Reserves(old(Now()), v, x) && !ReachesRecord(old(Now()), v, x)
      ensures r == Ready || r == Unavailable || r == Conflicting
    {
      hide Answer, After, Discarded, AtStep;
      var ok := true;
      if v.ref.Some? {
        ok := drafts.Serve(VoiceReserve(v, x));
        if !ok {
          return Conflicting;
        }
        if x.write != Refused {
          vault := vault + {v.ref.value};
        }
      }
      if (v.ref.Some? && x.write != Done) || x.cancelledAfter || !x.ready {
        if v.ref.Some? {
          DiscardStaged(Voices, StageLease(v), x.deletion, x.ack, x.retire);
        }
        return Unavailable;
      }
      ok := drafts.Serve(VoiceRecord(v, x));
      if !ok {
        if v.ref.Some? {
          DiscardStaged(Voices, StageLease(v), x.deletion, x.ack, x.retire);
        }
        return Conflicting;
      }
      return Ready;
    }
  }
}
