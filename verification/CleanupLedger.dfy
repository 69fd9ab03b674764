/** The durable ownership ledger of credential locators. The model ledger and its
    two-track voice twin share this code; `o` says which of the two is meant and
    decides the few places where they differ. */
module CleanupLedgers {
  import opened Wrappers
  import opened Configurations

  const MAX_ENTRIES := 16
  const MAX_ATTEMPTS := 1_000_000

  datatype Phase = Staged | Active | PendingCleanup

  datatype Reason = VaultWritePending | ConfigurationCommitted | CandidateAbandoned | Retired

  datatype Entry = Entry(ref: Locator, phase: Phase, reason: Reason, expectedGeneration: int,
                         committedGeneration: Option<int>, attempts: int)

  datatype LedgerError = Malformed | Full | Duplicate | Unavailable | OwnerConflict | NotAdoptable

  datatype LedgerResult = Ok(entries: seq<Entry>) | Err(error: LedgerError)

  // -------------------------------------------------------------------------
  // What a reload accepts
  // -------------------------------------------------------------------------

  predicate ValidReference(o: Owner, ref: Locator) {
    ref.managed && ref.Owner() == o
  }

  predicate ValidEntry(o: Owner, e: Entry) {
    && ValidReference(o, e.ref)
    && e.expectedGeneration >= 0
    && 0 <= e.attempts <= MAX_ATTEMPTS
    && match e.phase
       case Staged => e.reason == VaultWritePending && e.committedGeneration == None
       case Active => e.reason == ConfigurationCommitted && e.committedGeneration == Some(e.expectedGeneration + 1)
       case PendingCleanup =>
         || (e.reason == CandidateAbandoned && e.committedGeneration == None)
         || (e.reason == Retired && e.committedGeneration == Some(e.expectedGeneration + 1))
  }

  ghost predicate Unique(es: seq<Entry>) {
    forall i, j :: 0 <= i < j < |es| ==> es[i].ref != es[j].ref
  }

  ghost predicate OneActiveOwner(es: seq<Entry>) {
    forall i, j :: 0 <= i < j < |es| && es[i].phase == Active && es[j].phase == Active
      ==> es[i].ref.Track() != es[j].ref.Track() || es[i].committedGeneration != es[j].committedGeneration
  }

  ghost predicate ValidLedger(o: Owner, es: seq<Entry>) {
    && |es| <= MAX_ENTRIES
    && (forall e :: e in es ==> ValidEntry(o, e))
    && Unique(es)
    && OneActiveOwner(es)
  }

  /** The reader's own loop, with its two sets of what was already seen. */
  method Validate(o: Owner, es: seq<Entry>) returns (ok: bool)
    ensures ok <==> ValidLedger(o, es)
  {
    if |es| > MAX_ENTRIES {
      return false;
    }
    var seen: set<Locator> := {};
    var active: set<(Track, Option<int>)> := {};
    var i := 0;
    while i < |es|
      invariant 0 <= i <= |es|
      invariant seen == set j | 0 <= j < i :: es[j].ref
      invariant active == set j | 0 <= j < i && es[j].phase == Active :: (es[j].ref.Track(), es[j].committedGeneration)
      invariant forall j :: 0 <= j < i ==> ValidEntry(o, es[j])
      invariant Unique(es[..i]) && OneActiveOwner(es[..i])
    {
      var e := es[i];
      var owner := (e.ref.Track(), e.committedGeneration);
      if !ValidEntry(o, e) {
        return false;
      }
      if e.ref in seen {
        var j :| 0 <= j < i && es[j].ref == e.ref;
        return false;
      }
      if e.phase == Active && owner in active {
        var j :| 0 <= j < i && es[j].phase == Active && (es[j].ref.Track(), es[j].committedGeneration) == owner;
        return false;
      }
      seen := seen + {e.ref};
      if e.phase == Active {
        active := active + {owner};
      }
      i := i + 1;
    }
    assert es[..i] == es;
    return true;
  }

  // -------------------------------------------------------------------------
  // Reading a ledger by locator
  // -------------------------------------------------------------------------

  function Find(es: seq<Entry>, ref: Locator): (i: int)
    ensures -1 <= i < |es|
    ensures i >= 0 ==> es[i].ref == ref && forall j :: 0 <= j < i ==> es[j].ref != ref
    ensures i < 0 ==> forall e :: e in es ==> e.ref != ref
  {
    if es == [] then -1
    else if es[0].ref == ref then 0
    else
      var i := Find(es[1..], ref);
      assert forall j :: 1 <= j < |es| ==> es[j] == es[1..][j - 1];
      if i < 0 then -1 else i + 1
  }

  /** The ledger as a map from locators to entries. */
  function View(es: seq<Entry>): (m: map<Locator, Entry>)
    ensures forall l :: l in m <==> Find(es, l) >= 0
    ensures forall l :: l in m ==> m[l] == es[Find(es, l)]
  {
    map l | l in (set e | e in es :: e.ref) :: es[Find(es, l)]
  }

  lemma ViewIsLedger(es: seq<Entry>)
    requires Unique(es)
    ensures forall e :: e in es ==> e.ref in View(es) && View(es)[e.ref] == e
  {
    forall e | e in es
      ensures View(es)[e.ref] == e
    {
      var i :| 0 <= i < |es| && es[i] == e;
      assert Find(es, e.ref) == i;
    }
  }

  // -------------------------------------------------------------------------
  // The operations, each one read-modify-write under the ledger's lock
  // -------------------------------------------------------------------------

  function Reserve(o: Owner, es: seq<Entry>, ref: Locator, expected: int): LedgerResult {
    if !ValidReference(o, ref) || expected < 0 then Err(Malformed)
    else if o == ModelOwner && |es| >= MAX_ENTRIES then Err(Full)
    else if Find(es, ref) >= 0 then Err(Duplicate)
    else if |es| >= MAX_ENTRIES then Err(Full)
    else Ok(es + [Entry(ref, Staged, VaultWritePending, expected, None, 0)])
  }

  predicate OtherActiveOwner(es: seq<Entry>, skip: int, track: Track, committed: int) {
    exists i :: 0 <= i < |es| && i != skip && es[i].phase == Active && es[i].ref.Track() == track
                && es[i].committedGeneration == Some(committed)
  }

  /** Only the voice ledger compares the caller's expected generation with the stored one. */
  function MarkCommitted(o: Owner, es: seq<Entry>, ref: Locator, expected: int, committed: int): LedgerResult {
    var i := Find(es, ref);
    if !ValidReference(o, ref) || expected < 0 || committed != expected + 1 then Err(Malformed)
    else if i < 0 || es[i].phase != Staged then Err(Unavailable)
    else if o == VoiceOwner && es[i].expectedGeneration != expected then Err(Unavailable)
    else if OtherActiveOwner(es, i, ref.Track(), committed) then Err(OwnerConflict)
    else Ok(es[i := es[i].(phase := Active, reason := ConfigurationCommitted, committedGeneration := Some(committed))])
  }

  /** Whether an adoption of a new locator collides with an entry of the same generation:
      the model ledger looks at active entries, the voice ledger at entries of any phase. */
  predicate AdoptionCollides(o: Owner, es: seq<Entry>, track: Track, committed: int) {
    exists i :: 0 <= i < |es| && es[i].ref.Track() == track && es[i].committedGeneration == Some(committed)
                && (o == VoiceOwner || es[i].phase == Active)
  }

  function AdoptCommitted(o: Owner, es: seq<Entry>, ref: Locator, committed: int): LedgerResult {
    var i := Find(es, ref);
    if !ValidReference(o, ref) || committed < 1 then Err(Malformed)
    else if i >= 0 then
      if es[i].phase == Active then Ok(es)
      else if o == ModelOwner && es[i].phase == Staged && es[i].expectedGeneration == committed - 1 then
        Ok(es[i := es[i].(phase := Active, reason := ConfigurationCommitted, committedGeneration := Some(committed))])
      else Err(NotAdoptable)
    else if o == ModelOwner && |es| >= MAX_ENTRIES then Err(Full)
    else if AdoptionCollides(o, es, ref.Track(), committed) then Err(OwnerConflict)
    else if |es| >= MAX_ENTRIES then Err(Full)
    else Ok(es + [Entry(ref, Active, ConfigurationCommitted, committed - 1, Some(committed), 0)])
  }

  function Retire(o: Owner, es: seq<Entry>, ref: Locator, committed: int): LedgerResult {
    var i := Find(es, ref);
    if !ValidReference(o, ref) || committed < 1 then Err(Malformed)
    else if i < 0 || es[i].phase != Active || es[i].committedGeneration != Some(committed) then Err(Unavailable)
    else Ok(es[i := es[i].(phase := PendingCleanup, reason := Retired)])
  }

  function AbandonStaged(o: Owner, es: seq<Entry>, ref: Locator): LedgerResult {
    var i := Find(es, ref);
    if !ValidReference(o, ref) then Err(Malformed)
    else if i < 0 || es[i].phase != Staged then Err(Unavailable)
    else Ok(es[i := es[i].(phase := PendingCleanup, reason := CandidateAbandoned)])
  }

  function MarkCleanupAttempt(o: Owner, es: seq<Entry>, ref: Locator): LedgerResult {
    var i := Find(es, ref);
    if !ValidReference(o, ref) then Err(Malformed)
    else if i < 0 || es[i].phase != PendingCleanup || es[i].attempts >= MAX_ATTEMPTS then Err(Unavailable)
    else Ok(es[i := es[i].(attempts := es[i].attempts + 1)])
  }

  function Acknowledge(o: Owner, es: seq<Entry>, ref: Locator): LedgerResult {
    var i := Find(es, ref);
    if !ValidReference(o, ref) then Err(Malformed)
    else if i < 0 || es[i].phase != PendingCleanup then Err(Unavailable)
    else Ok(es[..i] + es[i + 1..])
  }

  function Pending(es: seq<Entry>): set<Locator> {
    set e | e in es && e.phase == PendingCleanup :: e.ref
  }

  // -------------------------------------------------------------------------
  // Each operation seen through the view
  // -------------------------------------------------------------------------

  ghost predicate SameAt(v: map<Locator, Entry>, v': map<Locator, Entry>, l: Locator) {
    (l in v' <==> l in v) && (l in v ==> v'[l] == v[l])
  }

  /** The two views agree on every locator but `ref`. */
  ghost predicate AgreeExcept(v: map<Locator, Entry>, v': map<Locator, Entry>, ref: Locator) {
    forall l :: l != ref ==> SameAt(v, v', l)
  }

  /** What an accepted operation does to the entries: it touches the locator it was given
      and no other. */
  ghost predicate Touches(es: seq<Entry>, es': seq<Entry>, ref: Locator) {
    Unique(es') && AgreeExcept(View(es), View(es'), ref)
  }

  lemma FindIs(es: seq<Entry>, i: nat)
    requires i < |es| && Unique(es)
    ensures Find(es, es[i].ref) == i
  {}

  /** `es'` holds at index `f(i)` what `es` holds at index `i`, for every entry of `l`. */
  lemma SameEntry(es: seq<Entry>, es': seq<Entry>, l: Locator, shift: int, at: int)
    requires Unique(es) && Unique(es')
    requires forall i :: 0 <= i < |es| && es[i].ref == l ==>
               var j := if i < at then i else i + shift; 0 <= j < |es'| && es'[j] == es[i]
    requires forall j :: 0 <= j < |es'| && es'[j].ref == l ==> es'[j] in es
    ensures SameAt(View(es), View(es'), l)
  {
    var i := Find(es, l);
    if i >= 0 {
      FindIs(es', if i < at then i else i + shift);
    }
  }

  lemma AppendedEntry(es: seq<Entry>, e: Entry)
    requires Unique(es) && Find(es, e.ref) < 0
    ensures Touches(es, es + [e], e.ref) && e.ref in View(es + [e]) && View(es + [e])[e.ref] == e
  {
    var es' := es + [e];
    forall i, j | 0 <= i < j < |es'|
      ensures es'[i].ref != es'[j].ref
    {
      assert es'[i] in es;
    }
    FindIs(es', |es|);
    forall l | l != e.ref
      ensures SameAt(View(es), View(es'), l)
    {
      SameEntry(es, es', l, 0, 0);
    }
  }

  lemma Rewrote(es: seq<Entry>, i: nat, e: Entry)
    requires i < |es| && Unique(es) && e.ref == es[i].ref
    ensures Touches(es, es[i := e], e.ref) && e.ref in View(es[i := e]) && View(es[i := e])[e.ref] == e
  {
    var es' := es[i := e];
    FindIs(es', i);
    forall l | l != e.ref
      ensures SameAt(View(es), View(es'), l)
    {
      SameEntry(es, es', l, 0, 0);
    }
  }

  lemma RemovedEntry(es: seq<Entry>, i: nat)
    requires i < |es| && Unique(es)
    ensures Touches(es, es[..i] + es[i + 1..], es[i].ref) && es[i].ref !in View(es[..i] + es[i + 1..])
  {
    var es' := es[..i] + es[i + 1..];
    assert forall j :: 0 <= j < |es'| ==> es'[j] == es[if j < i then j else j + 1];
    forall l | l != es[i].ref
      ensures SameAt(View(es), View(es'), l)
    {
      SameEntry(es, es', l, -1, i);
    }
  }

  lemma ReserveEffect(o: Owner, es: seq<Entry>, ref: Locator, expected: int)
    requires Unique(es)
    ensures var r := Reserve(o, es, ref, expected);
            r.Ok? ==> && ref !in View(es) && ValidReference(o, ref) && expected >= 0
                      && Touches(es, r.entries, ref) && |r.entries| <= MAX_ENTRIES
                      && ref in View(r.entries)
                      && View(r.entries)[ref] == Entry(ref, Staged, VaultWritePending, expected, None, 0)
  {
    if Reserve(o, es, ref, expected).Ok? {
      AppendedEntry(es, Entry(ref, Staged, VaultWritePending, expected, None, 0));
    }
  }

  lemma MarkCommittedEffect(o: Owner, es: seq<Entry>, ref: Locator, expected: int, committed: int)
    requires Unique(es)
    ensures var r := MarkCommitted(o, es, ref, expected, committed);
            r.Ok? ==> && ref in View(es) && View(es)[ref].phase == Staged && committed == expected + 1
                      && Touches(es, r.entries, ref) && |r.entries| == |es|
                      && ref in View(r.entries)
                      && View(r.entries)[ref] == View(es)[ref].(phase := Active, reason := ConfigurationCommitted,
                                                                committedGeneration := Some(committed))
  {
    if MarkCommitted(o, es, ref, expected, committed).Ok? {
      var i := Find(es, ref);
      Rewrote(es, i, es[i].(phase := Active, reason := ConfigurationCommitted, committedGeneration := Some(committed)));
    }
  }

  lemma AdoptCommittedEffect(o: Owner, es: seq<Entry>, ref: Locator, committed: int)
    requires Unique(es)
    ensures var r := AdoptCommitted(o, es, ref, committed);
            r.Ok? ==> && Touches(es, r.entries, ref)
                      && |r.entries| <= (if |es| > MAX_ENTRIES then |es| else MAX_ENTRIES)
                      && ref in View(r.entries) && View(r.entries)[ref].phase == Active && ValidReference(o, ref)
                      && committed >= 1
                      && (if ref in View(es) then
                            || (View(es)[ref].phase == Active && r.entries == es)
                            || (View(es)[ref].phase == Staged && View(es)[ref].expectedGeneration == committed - 1
                                && View(r.entries)[ref] == View(es)[ref].(phase := Active,
                                                                          reason := ConfigurationCommitted,
                                                                          committedGeneration := Some(committed)))
                          else View(r.entries)[ref] == Entry(ref, Active, ConfigurationCommitted, committed - 1,
                                                             Some(committed), 0))
  {
    var i := Find(es, ref);
    if i >= 0 {
      Rewrote(es, i, es[i].(phase := Active, reason := ConfigurationCommitted, committedGeneration := Some(committed)));
    } else {
      AppendedEntry(es, Entry(ref, Active, ConfigurationCommitted, committed - 1, Some(committed), 0));
    }
  }

  lemma RetireEffect(o: Owner, es: seq<Entry>, ref: Locator, committed: int)
    requires Unique(es)
    ensures var r := Retire(o, es, ref, committed);
            r.Ok? ==> && ref in View(es) && View(es)[ref].phase == Active
                      && Touches(es, r.entries, ref) && |r.entries| == |es|
                      && ref in View(r.entries)
                      && View(r.entries)[ref] == View(es)[ref].(phase := PendingCleanup, reason := Retired)
  {
    var i := Find(es, ref);
    if i >= 0 {
      Rewrote(es, i, es[i].(phase := PendingCleanup, reason := Retired));
    }
  }

  lemma AbandonStagedEffect(o: Owner, es: seq<Entry>, ref: Locator)
    requires Unique(es)
    ensures var r := AbandonStaged(o, es, ref);
            r.Ok? ==> && ref in View(es) && View(es)[ref].phase == Staged
                      && Touches(es, r.entries, ref) && |r.entries| == |es|
                      && ref in View(r.entries)
                      && View(r.entries)[ref] == View(es)[ref].(phase := PendingCleanup, reason := CandidateAbandoned)
  {
    var i := Find(es, ref);
    if i >= 0 {
      Rewrote(es, i, es[i].(phase := PendingCleanup, reason := CandidateAbandoned));
    }
  }

  lemma AttemptEffect(o: Owner, es: seq<Entry>, ref: Locator)
    requires Unique(es)
    ensures var r := MarkCleanupAttempt(o, es, ref);
            r.Ok? ==> && ref in View(es) && View(es)[ref].phase == PendingCleanup
                      && View(es)[ref].attempts < MAX_ATTEMPTS
                      && Touches(es, r.entries, ref) && |r.entries| == |es|
                      && ref in View(r.entries)
                      && View(r.entries)[ref] == View(es)[ref].(attempts := View(es)[ref].attempts + 1)
  {
    var i := Find(es, ref);
    if i >= 0 {
      Rewrote(es, i, es[i].(attempts := es[i].attempts + 1));
    }
  }

  lemma AcknowledgeEffect(o: Owner, es: seq<Entry>, ref: Locator)
    requires Unique(es)
    ensures var r := Acknowledge(o, es, ref);
            r.Ok? ==> && ref in View(es) && View(es)[ref].phase == PendingCleanup
                      && Touches(es, r.entries, ref) && |r.entries| <= |es|
                      && ref !in View(r.entries)
  {
    var i := Find(es, ref);
    if i >= 0 {
      RemovedEntry(es, i);
    }
  }

  // -------------------------------------------------------------------------
  // When each operation is accepted, and how it is refused
  // -------------------------------------------------------------------------

  /** An active owner of that track and generation other than `ref`. */
  ghost predicate Owned(es: seq<Entry>, ref: Locator, committed: int) {
    exists l :: l in View(es) && l != ref && View(es)[l].phase == Active && l.Track() == ref.Track()
                && View(es)[l].committedGeneration == Some(committed)
  }

  /** An entry of any phase with that track and generation. */
  ghost predicate Recorded(es: seq<Entry>, ref: Locator, committed: int) {
    exists l :: l in View(es) && l.Track() == ref.Track() && View(es)[l].committedGeneration == Some(committed)
  }

  lemma EntryInView(es: seq<Entry>, i: nat)
    requires i < |es| && Unique(es)
    ensures es[i].ref in View(es) && View(es)[es[i].ref] == es[i]
  {
    FindIs(es, i);
  }

  lemma ReservesExactly(o: Owner, es: seq<Entry>, ref: Locator, expected: int)
    ensures var r := Reserve(o, es, ref, expected);
            && (r.Ok? <==> ref.managed && ref.Owner() == o && expected >= 0 && ref !in View(es) && |es| < 16)
            && (r == Err(Malformed) <==> !(ref.managed && ref.Owner() == o && expected >= 0))
            && (r == Err(Full) <==> ref.managed && ref.Owner() == o && expected >= 0 && |es| >= 16
                                    && (o == ModelOwner || ref !in View(es)))
            && (r.Ok? || r == Err(Malformed) || r == Err(Full) || r == Err(Duplicate))
  {}

  lemma OwnedIs(es: seq<Entry>, ref: Locator, committed: int)
    requires Unique(es)
    ensures OtherActiveOwner(es, Find(es, ref), ref.Track(), committed) <==> Owned(es, ref, committed)
  {
    var skip := Find(es, ref);
    if OtherActiveOwner(es, skip, ref.Track(), committed) {
      var i :| 0 <= i < |es| && i != skip && es[i].phase == Active && es[i].ref.Track() == ref.Track()
               && es[i].committedGeneration == Some(committed);
      EntryInView(es, i);
      if es[i].ref == ref {
        FindIs(es, i);
      }
    }
    if Owned(es, ref, committed) {
      var l :| l in View(es) && l != ref && View(es)[l].phase == Active && l.Track() == ref.Track()
               && View(es)[l].committedGeneration == Some(committed);
      assert es[Find(es, l)].ref == l;
    }
  }

  lemma MarksExactly(o: Owner, es: seq<Entry>, ref: Locator, expected: int, committed: int)
    requires Unique(es)
    ensures var r := MarkCommitted(o, es, ref, expected, committed);
            var asked := ref.managed && ref.Owner() == o && expected >= 0 && committed == expected + 1;
            var staged := ref in View(es) && View(es)[ref].phase == Staged
                          && (o == VoiceOwner ==> View(es)[ref].expectedGeneration == expected);
            && (r.Ok? <==> asked && staged && !Owned(es, ref, committed))
            && (r == Err(Malformed) <==> !asked)
            && (r == Err(Unavailable) <==> asked && !staged)
            && (r == Err(OwnerConflict) <==> asked && staged && Owned(es, ref, committed))
  {
    OwnedIs(es, ref, committed);
    hide OtherActiveOwner, Owned, Unique;
  }

  lemma RecordedIs(o: Owner, es: seq<Entry>, ref: Locator, committed: int)
    requires Unique(es) && ref !in View(es)
    ensures AdoptionCollides(o, es, ref.Track(), committed) <==>
              if o == VoiceOwner then Recorded(es, ref, committed) else Owned(es, ref, committed)
  {
    if AdoptionCollides(o, es, ref.Track(), committed) {
      var i :| 0 <= i < |es| && es[i].ref.Track() == ref.Track() && es[i].committedGeneration == Some(committed)
               && (o == VoiceOwner || es[i].phase == Active);
      EntryInView(es, i);
    }
    if o == VoiceOwner && Recorded(es, ref, committed) {
      var l :| l in View(es) && l.Track() == ref.Track() && View(es)[l].committedGeneration == Some(committed);
      assert es[Find(es, l)].ref == l;
    }
    if o == ModelOwner && Owned(es, ref, committed) {
      var l :| l in View(es) && l != ref && View(es)[l].phase == Active && l.Track() == ref.Track()
               && View(es)[l].committedGeneration == Some(committed);
      assert es[Find(es, l)].ref == l;
    }
  }

  /** What an adoption that names a locator and a generation finds. */
  ghost predicate Adoptable(o: Owner, es: seq<Entry>, ref: Locator, committed: int) {
    if ref in View(es) then
      || View(es)[ref].phase == Active
      || (o == ModelOwner && View(es)[ref].phase == Staged && View(es)[ref].expectedGeneration + 1 == committed)
    else |es| < 16 && !(if o == VoiceOwner then Recorded(es, ref, committed) else Owned(es, ref, committed))
  }

  lemma AdoptsExactly(o: Owner, es: seq<Entry>, ref: Locator, committed: int)
    requires Unique(es)
    ensures var r := AdoptCommitted(o, es, ref, committed);
            var asked := ref.managed && ref.Owner() == o && committed >= 1;
            && (r.Ok? <==> asked && Adoptable(o, es, ref, committed))
            && (r == Err(Malformed) <==> !asked)
            && (r == Err(NotAdoptable) <==> asked && ref in View(es) && !Adoptable(o, es, ref, committed))
  {
    if ref !in View(es) {
      RecordedIs(o, es, ref, committed);
    }
    hide AdoptionCollides, Owned, Recorded, Unique;
  }

  lemma RetiresExactly(o: Owner, es: seq<Entry>, ref: Locator, committed: int)
    ensures Retire(o, es, ref, committed).Ok? <==>
              && ref.managed && ref.Owner() == o && committed >= 1
              && ref in View(es) && View(es)[ref].phase == Active
              && View(es)[ref].committedGeneration == Some(committed)
  {}

  lemma AbandonsExactly(o: Owner, es: seq<Entry>, ref: Locator)
    ensures AbandonStaged(o, es, ref).Ok? <==>
              ref.managed && ref.Owner() == o && ref in View(es) && View(es)[ref].phase == Staged
  {}

  /** Attempts may be counted up to a million, and acknowledged at any count. */
  lemma CleansUpExactly(o: Owner, es: seq<Entry>, ref: Locator)
    ensures var pending := ref.managed && ref.Owner() == o && ref in View(es) && View(es)[ref].phase == PendingCleanup;
            && (MarkCleanupAttempt(o, es, ref).Ok? <==> pending && View(es)[ref].attempts < 1_000_000)
            && (Acknowledge(o, es, ref).Ok? <==> pending)
  {}
}
