/** The sliding-window limiter of the private voice controller. */
module VoiceLimiter {
  import opened Wrappers

  const WINDOW_MS := 30_000
  const MAX_PER_WINDOW := 6

  /** The attempts that are still inside the window that ends at `now`. */
  function Trimmed(attempts: seq<int>, now: int): seq<int>
    decreases |attempts|
  {
    if attempts != [] && attempts[0] <= now - WINDOW_MS then Trimmed(attempts[1..], now) else attempts
  }

  /** Whole seconds, rounded up. */
  function Seconds(ms: int): int {
    -((-ms) / 1_000)
  }

  function RetryAfter(oldest: int, now: int): int {
    var seconds := Seconds(oldest + WINDOW_MS - now);
    if seconds < 1 then 1 else seconds
  }

  /** An attempt at a time, or the end of the one in flight. */
  datatype Event = Attempt(now: int) | Release

  /** The limiter's fields; `single` says whether one attempt at a time may be in flight. */
  datatype Limiter = Limiter(single: bool, attempts: seq<int>, inFlight: bool)

  /** The seconds to wait, or nothing when the attempt is admitted. */
  function Reserve(l: Limiter, now: int): (Limiter, Option<int>) {
    if l.inFlight then (l, Some(1))
    else
      var kept := Trimmed(l.attempts, now);
      if |kept| >= MAX_PER_WINDOW then (l.(attempts := kept), Some(RetryAfter(kept[0], now)))
      else (l.(attempts := kept + [now], inFlight := l.single), None)
  }

  function Next(l: Limiter, e: Event): Limiter {
    match e
    case Attempt(now) => Reserve(l, now).0
    case Release => l.(inFlight := false)
  }

  function Run(l: Limiter, events: seq<Event>): Limiter
    decreases |events|
  {
    if events == [] then l else Next(Run(l, events[..|events| - 1]), events[|events| - 1])
  }

  /** The times of the attempts that a run admitted. */
  function Admitted(l: Limiter, events: seq<Event>): seq<int>
    decreases |events|
  {
    if events == [] then []
    else
      var n := |events| - 1;
      var before := Admitted(l, events[..n]);
      if events[n].Attempt? && Reserve(Run(l, events[..n]), events[n].now).1 == None then before + [events[n].now]
      else before
  }

  /** The clock never goes back. */
  ghost predicate Clocked(events: seq<Event>) {
    forall i, j :: 0 <= i < j < |events| && events[i].Attempt? && events[j].Attempt? ==> events[i].now <= events[j].now
  }

  predicate Sorted(ts: seq<int>) {
    forall i, j :: 0 <= i < j < |ts| ==> ts[i] <= ts[j]
  }

  lemma {:induction false} TrimmedIs(ts: seq<int>, now: int)
    requires Sorted(ts)
    ensures var k := |ts| - |Trimmed(ts, now)|;
            && 0 <= k <= |ts| && Trimmed(ts, now) == ts[k..]
            && (forall i :: 0 <= i < k ==> ts[i] <= now - WINDOW_MS)
            && (forall i :: k <= i < |ts| ==> ts[i] > now - WINDOW_MS)
    decreases |ts|
  {
    if ts != [] && ts[0] <= now - WINDOW_MS {
      TrimmedIs(ts[1..], now);
    }
  }

  /** What the limiter remembers is the end of what it admitted, and what it forgot lies
      outside the window of every later attempt. */
  ghost predicate Remembered(admitted: seq<int>, attempts: seq<int>, now: int) {
    var k := |admitted| - |attempts|;
    && 0 <= k && attempts == admitted[k..] && |attempts| <= MAX_PER_WINDOW && Sorted(admitted)
    && (forall i :: 0 <= i < |admitted| ==> admitted[i] <= now)
    && (forall i :: 0 <= i < k ==> admitted[i] <= now - WINDOW_MS)
    && (forall i :: 0 <= i && i + MAX_PER_WINDOW < |admitted| ==>
        admitted[i + MAX_PER_WINDOW] - admitted[i] >= WINDOW_MS)
  }

  lemma ForgetsOld(admitted: seq<int>, attempts: seq<int>, now: int)
    requires Remembered(admitted, attempts, now)
    ensures Remembered(admitted, Trimmed(attempts, now), now)
  {
    TrimmedIs(attempts, now);
    var k, j := |admitted| - |attempts|, |attempts| - |Trimmed(attempts, now)|;
    forall i | k <= i < k + j
      ensures admitted[i] <= now - WINDOW_MS
    {
      assert attempts[i - k] == admitted[i];
    }
  }

  lemma AdmitsNext(admitted: seq<int>, attempts: seq<int>, now: int)
    requires Remembered(admitted, attempts, now) && |attempts| < MAX_PER_WINDOW
    ensures Remembered(admitted + [now], attempts + [now], now)
  {
    assert (admitted + [now])[|admitted| - |attempts|..] == attempts + [now];
  }

  lemma LaterOn(admitted: seq<int>, attempts: seq<int>, now: int, later: int)
    requires Remembered(admitted, attempts, now) && now <= later
    ensures Remembered(admitted, attempts, later)
  {}

  /** The last event of a run. */
  lemma LastEvent(l: Limiter, events: seq<Event>)
    requires events != []
    ensures var n := |events| - 1;
            var s, a := Run(l, events[..n]), Admitted(l, events[..n]);
            && Run(l, events) == Next(s, events[n])
            && Admitted(l, events) == if events[n].Attempt? && Reserve(s, events[n].now).1 == None
               then a + [events[n].now] else a
  {
    hide Reserve, Next;
  }

  lemma NothingYet(l: Limiter, now: int)
    requires l.attempts == []
    ensures Remembered(Admitted(l, []), Run(l, []).attempts, now)
  {}

  /** One event keeps the record straight. */
  lemma EventRemembered(s: Limiter, a: seq<int>, e: Event, now: int)
    requires Remembered(a, s.attempts, now) && (e.Attempt? ==> e.now == now)
    ensures Remembered(if e.Attempt? && Reserve(s, e.now).1 == None then a + [e.now] else a, Next(s, e).attempts, now)
  {
    if e.Attempt? {
      ForgetsOld(a, s.attempts, now);
      if |Trimmed(s.attempts, now)| < MAX_PER_WINDOW {
        AdmitsNext(a, Trimmed(s.attempts, now), now);
      }
    }
    hide Remembered, Trimmed;
  }

  lemma EarlierEvents(events: seq<Event>, now: int)
    requires events != [] && Clocked(events) && forall e :: e in events && e.Attempt? ==> e.now <= now
    ensures var n := |events| - 1;
            var t := if events[n].Attempt? then events[n].now else now;
            t <= now && Clocked(events[..n]) && forall e :: e in events[..n] && e.Attempt? ==> e.now <= t
  {
    var n := |events| - 1;
    var t := if events[n].Attempt? then events[n].now else now;
    assert events[n] in events;
    forall x | x in events[..n] && x.Attempt?
      ensures x.now <= t
    {
      var i :| 0 <= i < n && events[..n][i] == x;
      assert events[i] == x && x in events;
    }
  }

  lemma {:induction false} Remembers(l: Limiter, events: seq<Event>, now: int)
    requires l.attempts == [] && Clocked(events) && forall e :: e in events && e.Attempt? ==> e.now <= now
    ensures Remembered(Admitted(l, events), Run(l, events).attempts, now)
    decreases |events|
  {
    hide *;
    if events == [] {
      NothingYet(l, now);
    } else {
      var n := |events| - 1;
      var t := if events[n].Attempt? then events[n].now else now;
      EarlierEvents(events, now);
      Remembers(l, events[..n], t);
      LastEvent(l, events);
      EventRemembered(Run(l, events[..n]), Admitted(l, events[..n]), events[n], t);
      LaterOn(Admitted(l, events), Run(l, events).attempts, t, now);
    }
  }

  /** In every run, any thirty seconds hold at most six admitted attempts: the seventh is
      at least thirty seconds after the first. */
  lemma SixPerWindow(l: Limiter, events: seq<Event>, i: nat)
    requires l.attempts == [] && Clocked(events) && i + MAX_PER_WINDOW < |Admitted(l, events)|
    ensures Admitted(l, events)[i + MAX_PER_WINDOW] - Admitted(l, events)[i] >= WINDOW_MS
  {
    var now := LastTime(events);
    Remembers(l, events, now);
  }

  function LastTime(events: seq<Event>): (t: int)
    ensures forall e :: e in events && e.Attempt? ==> e.now <= t
    decreases |events|
  {
    if events == [] then 0
    else
      var t := LastTime(events[1..]);
      assert forall e :: e in events <==> e == events[0] || e in events[1..];
      if events[0].Attempt? && events[0].now > t then events[0].now else t
  }

  lemma HonestWait(l: Limiter, now: int, later: int)
    requires Sorted(l.attempts) && |l.attempts| <= MAX_PER_WINDOW && (forall t :: t in l.attempts ==> t <= now)
    requires !l.inFlight && Reserve(l, now).1.Some?
    ensures later >= now + Reserve(l, now).1.value * 1_000 ==> Reserve(Reserve(l, now).0, later).1 == None
    ensures now <= later <= now + (Reserve(l, now).1.value - 1) * 1_000 ==>
              Reserve(Reserve(l, now).0, later).1.Some?
    ensures 1 <= Reserve(l, now).1.value <= 30
  {
    var kept := Trimmed(l.attempts, now);
    TrimmedIs(l.attempts, now);
    assert kept[0] in l.attempts;
    assert Seconds(kept[0] + WINDOW_MS - now) * 1_000 >= kept[0] + WINDOW_MS - now;
    assert Seconds(kept[0] + WINDOW_MS - now) * 1_000 < kept[0] + WINDOW_MS - now + 1_000;
    TrimmedIs(kept, later);
  }

  /** A refusal by the window is honest: after any run, waiting the seconds it names, with no
      attempt in between and none in flight, is enough to be admitted, one second less is
      not, and it never names more than thirty. */
  lemma WaitIsExact(l: Limiter, events: seq<Event>, now: int, later: int)
    requires l.attempts == [] && Clocked(events) && forall e :: e in events && e.Attempt? ==> e.now <= now
    requires !Run(l, events).inFlight && Reserve(Run(l, events), now).1.Some?
    ensures var (s, wait) := Reserve(Run(l, events), now);
            && 1 <= wait.value <= 30
            && (later >= now + wait.value * 1_000 ==> Reserve(s, later).1 == None)
            && (now <= later <= now + (wait.value - 1) * 1_000 ==> Reserve(s, later).1.Some?)
  {
    Remembers(l, events, now);
    HonestWait(Run(l, events), now, later);
  }

  /** After any run, an attempt is admitted exactly when none is in flight and fewer than six
      were admitted in the thirty seconds before it; one in flight means one second and no
      other effect. */
  lemma AdmitsExactly(l: Limiter, events: seq<Event>, now: int)
    requires l.attempts == [] && Clocked(events) && forall e :: e in events && e.Attempt? ==> e.now <= now
    ensures var s, admitted := Run(l, events), Admitted(l, events);
            && (Reserve(s, now).1 == None <==>
                !s.inFlight && (|admitted| < 6 || admitted[|admitted| - 6] <= now - 30_000))
            && (s.inFlight ==> Reserve(s, now) == (s, Some(1)))
  {
    Remembers(l, events, now);
    var s, admitted := Run(l, events), Admitted(l, events);
    ForgetsOld(admitted, s.attempts, now);
    TrimmedIs(s.attempts, now);
    var kept := Trimmed(s.attempts, now);
    assert forall i :: 0 <= i < |kept| ==> kept[i] == admitted[|admitted| - |kept| + i] && kept[i] > now - 30_000;
  }

  /** Event `i` of a run is an attempt that was admitted. */
  predicate Admits(l: Limiter, events: seq<Event>, i: nat)
    requires i < |events|
  {
    events[i].Attempt? && Reserve(Run(l, events[..i]), events[i].now).1 == None
  }

  /** Some attempt was admitted and no release has followed it. */
  ghost predicate Unreleased(l: Limiter, events: seq<Event>) {
    exists i :: 0 <= i < |events| && Admits(l, events, i) && forall j :: i < j < |events| ==> !events[j].Release?
  }

  lemma AdmitsBefore(l: Limiter, events: seq<Event>, i: nat)
    requires events != [] && i < |events| - 1
    ensures Admits(l, events, i) == Admits(l, events[..|events| - 1], i)
  {
    assert events[..|events| - 1][..i] == events[..i];
    hide Reserve, Run;
  }

  lemma UnreleasedStep(l: Limiter, events: seq<Event>)
    requires events != []
    ensures var n := |events| - 1;
            Unreleased(l, events) <==> Admits(l, events, n) || (Unreleased(l, events[..n]) && !events[n].Release?)
  {
    hide Admits;
    var n := |events| - 1;
    var before := events[..n];
    if i :| 0 <= i < |events| && Admits(l, events, i) && forall j :: i < j < |events| ==> !events[j].Release? {
      if i < n {
        AdmitsBefore(l, events, i);
        assert forall j :: i < j < n ==> before[j] == events[j];
      }
    }
    if i :| 0 <= i < n && Admits(l, before, i) && forall j :: i < j < n ==> !before[j].Release? {
      AdmitsBefore(l, events, i);
      assert forall j :: i < j < n ==> before[j] == events[j];
    }
  }

  lemma InFlightStep(s: Limiter, e: Event)
    ensures Next(s, e).single == s.single
    ensures Next(s, e).inFlight <==>
            match e
            case Attempt(now) => s.inFlight || (s.single && Reserve(s, now).1 == None)
            case Release => false
  {
    hide Trimmed;
  }

  /** An attempt is in flight exactly when the controller allows one at a time and no release
      has followed the last admitted one. */
  lemma {:induction false} InFlightExactly(l: Limiter, events: seq<Event>)
    requires !l.inFlight
    ensures Run(l, events).inFlight <==> l.single && Unreleased(l, events)
    ensures Run(l, events).single == l.single
    decreases |events|
  {
    hide Unreleased, Next, Reserve;
    if events == [] {
      NoneUnreleased(l);
    } else {
      var n := |events| - 1;
      InFlightExactly(l, events[..n]);
      LastEvent(l, events);
      InFlightStep(Run(l, events[..n]), events[n]);
      UnreleasedStep(l, events);
    }
  }

  lemma NoneUnreleased(l: Limiter)
    ensures !Unreleased(l, [])
  {}

  /** The controller's own fields and loop. */
  class AttemptWindow {
    const single: bool
    var attempts: seq<int>
    var inFlight: bool

    ghost function State(): Limiter
      reads this
    {
      Limiter(single, attempts, inFlight)
    }

    constructor (single: bool)
      ensures State() == Limiter(single, [], false)
    {
      this.single := single;
      attempts := [];
      inFlight := false;
    }

    method Trim(now: int)
      modifies this`attempts
      ensures attempts == Trimmed(old(attempts), now)
    {
      while attempts != [] && attempts[0] <= now - WINDOW_MS
        invariant Trimmed(attempts, now) == Trimmed(old(attempts), now)
        decreases |attempts|
      {
        attempts := attempts[1..];
      }
    }

    method TryReserve(now: int) returns (wait: Option<int>)
      modifies this
      ensures (State(), wait) == Reserve(old(State()), now)
    {
      if inFlight {
        return Some(1);
      }
      Trim(now);
      if |attempts| >= MAX_PER_WINDOW {
        return Some(RetryAfter(attempts[0], now));
      }
      attempts := attempts + [now];
      inFlight := single;
      return None;
    }

    method EndAttempt()
      modifies this`inFlight
      ensures State() == Next(old(State()), Release)
    {
      inFlight := false;
    }
  }
}
