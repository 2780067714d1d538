/** The rate limiter of backend/app/middleware/rate_limit_middleware.py: one shared counter per key,
    incremented atomically, whose expiry is set by a separate command of whoever saw the value 1.
    Between any two commands other requests may act. */
module RateLimit {
  import opened Basics

  datatype Counter = Absent | Present(count: nat, expiresAt: Option<int>)

  /** One increment: when, in which lifetime of the counter, and the value it returned. */
  datatype Hit = Hit(at: int, epoch: nat, value: nat)

  /** `starts[e]` is the creation time of the counter's e-th lifetime; `log` is every increment. */
  datatype State = State(now: int, counter: Counter, starts: seq<int>, log: seq<Hit>)

  datatype Step =
    | Wait(elapsed: nat)
    | Increment
    | SetExpiry  // the EXPIRE of the request that was given the value 1
    | Lapse      // the store drops a counter whose expiry has passed

  function Apply(s: State, step: Step, window: nat): State {
    match step
    case Wait(elapsed) => s.(now := s.now + elapsed)
    case Increment =>
      if s.counter.Absent? then
        s.(counter := Present(1, None), starts := s.starts + [s.now], log := s.log + [Hit(s.now, |s.starts|, 1)])
      else
        var value := s.counter.count + 1;
        s.(counter := s.counter.(count := value), log := s.log + [Hit(s.now, Epoch(s), value)])
    case SetExpiry =>
      if s.counter.Present? && s.counter.expiresAt.None?
      then s.(counter := s.counter.(expiresAt := Some(s.now + window)))
      else s
    case Lapse =>
      if s.counter.Present? && s.counter.expiresAt.Some? && s.counter.expiresAt.value <= s.now
      then s.(counter := Absent)
      else s
  }

  function Epoch(s: State): nat {
    if s.starts == [] then 0 else |s.starts| - 1
  }

  function Run(s: State, steps: seq<Step>, window: nat): State {
    if steps == [] then s else Apply(Run(s, steps[..|steps| - 1], window), steps[|steps| - 1], window)
  }

  function Start(now: int): State {
    State(now, Absent, [], [])
  }

  // ---- counting admissions ----

  /** Admitted requests of one lifetime: `current > limit` is refused. */
  function AdmittedIn(log: seq<Hit>, limit: nat, epoch: nat): nat {
    if log == [] then 0
    else
      var h := log[|log| - 1];
      AdmittedIn(log[..|log| - 1], limit, epoch) + (if h.epoch == epoch && h.value <= limit then 1 else 0)
  }

  /** Admitted requests in the half-open interval [from, to). */
  function AdmittedBetween(log: seq<Hit>, limit: nat, from: int, to: int): nat {
    if log == [] then 0
    else
      var h := log[|log| - 1];
      AdmittedBetween(log[..|log| - 1], limit, from, to) + (if from <= h.at < to && h.value <= limit then 1 else 0)
  }

  /** Lifetimes start at least a window apart, and the current one has not outlived its expiry. */
  ghost predicate Spaced(s: State, window: nat) {
    && (s.counter.Present? ==> s.starts != [] && s.counter.count > 0)
    && (forall e | 0 < e < |s.starts| :: s.starts[e - 1] + window <= s.starts[e])
    && (s.starts != [] ==> s.starts[|s.starts| - 1] <= s.now)
    && (s.starts != [] && s.counter.Absent? ==> s.starts[|s.starts| - 1] + window <= s.now)
    && (s.counter.Present? && s.counter.expiresAt.Some? ==>
          s.starts[|s.starts| - 1] + window <= s.counter.expiresAt.value)
  }

  ghost predicate HitFits(starts: seq<int>, now: int, h: Hit) {
    h.epoch < |starts| && starts[h.epoch] <= h.at <= now && (h.epoch + 1 < |starts| ==> h.at <= starts[h.epoch + 1])
  }

  /** Every hit lies in its lifetime, and every lifetime's first increment is logged at its start. */
  ghost predicate Logged(s: State) {
    && (forall i | 0 <= i < |s.log| :: HitFits(s.starts, s.now, s.log[i]))
    && (forall e {:trigger Opened(s, e)} | 0 <= e < |s.starts| :: Opened(s, e))
  }

  ghost predicate Opened(s: State, e: nat)
    requires e < |s.starts|
  {
    Hit(s.starts[e], e, 1) in s.log
  }

  ghost predicate Counted(s: State, limit: nat) {
    && (forall e: nat :: AdmittedIn(s.log, limit, e) <= limit)
    && (s.counter.Present? && s.starts != [] ==>
          AdmittedIn(s.log, limit, |s.starts| - 1) == Min(s.counter.count, limit))
    && (forall e: nat | e >= |s.starts| :: AdmittedIn(s.log, limit, e) == 0)
  }

  lemma SpacedKept(s: State, step: Step, window: nat)
    requires Spaced(s, window)
    ensures Spaced(Apply(s, step, window), window)
  {
  }

  lemma LoggedKept(s: State, step: Step, window: nat)
    requires Spaced(s, window) && Logged(s)
    ensures Logged(Apply(s, step, window))
  {
    var t := Apply(s, step, window);
    forall i | 0 <= i < |t.log| ensures HitFits(t.starts, t.now, t.log[i]) {
      if i < |s.log| {
        assert t.log[i] == s.log[i] && HitFits(s.starts, s.now, s.log[i]);
      }
    }
    forall e | 0 <= e < |t.starts| ensures Opened(t, e) {
      if e == |s.starts| {
        assert t.log[|s.log|] == Hit(t.starts[e], e, 1);
      } else {
        assert Opened(s, e);
      }
    }
  }

  lemma OneMoreHit(log: seq<Hit>, h: Hit, limit: nat, epoch: nat)
    ensures AdmittedIn(log + [h], limit, epoch) ==
            AdmittedIn(log, limit, epoch) + (if h.epoch == epoch && h.value <= limit then 1 else 0)
  {
    assert (log + [h])[..|log|] == log;
  }

  lemma CountedKept(s: State, step: Step, limit: nat, window: nat)
    requires s.counter.Present? ==> s.starts != []
    requires Counted(s, limit)
    ensures Counted(Apply(s, step, window), limit)
  {
    var t := Apply(s, step, window);
    if step.Increment? {
      var h := t.log[|s.log|];
      assert t.log == s.log + [h];
      forall e: nat
        ensures AdmittedIn(t.log, limit, e) ==
                AdmittedIn(s.log, limit, e) + (if h.epoch == e && h.value <= limit then 1 else 0)
      {
        OneMoreHit(s.log, h, limit, e);
      }
    } else {
      assert t.log == s.log && t.starts == s.starts;
    }
  }

  lemma {:induction false} RunKeeps(now: int, steps: seq<Step>, limit: nat, window: nat)
    ensures var s := Run(Start(now), steps, window); Spaced(s, window) && Logged(s) && Counted(s, limit)
  {
    if steps != [] {
      var before := Run(Start(now), steps[..|steps| - 1], window);
      RunKeeps(now, steps[..|steps| - 1], limit, window);
      SpacedKept(before, steps[|steps| - 1], window);
      LoggedKept(before, steps[|steps| - 1], window);
      CountedKept(before, steps[|steps| - 1], limit, window);
    }
  }

  /** Requests two lifetimes apart are at least a window apart. */
  lemma LifetimesApart(s: State, window: nat, i: nat, j: nat)
    requires Spaced(s, window) && Logged(s) && i < |s.log| && j < |s.log|
    requires s.log[i].epoch < s.log[j].epoch
    ensures s.starts[s.log[i].epoch] + window <= s.log[j].at
    ensures s.log[i].epoch + 2 <= s.log[j].epoch ==>
              s.log[i].epoch + 1 < |s.starts| && s.starts[s.log[i].epoch + 1] + window <= s.log[j].at
  {
    StartsOrdered(s.starts, window, s.log[i].epoch + 1, s.log[j].epoch);
    if s.log[i].epoch + 2 <= s.log[j].epoch {
      StartsOrdered(s.starts, window, s.log[i].epoch + 2, s.log[j].epoch);
    }
  }

  lemma {:induction false} StartsOrdered(starts: seq<int>, window: nat, e: nat, f: nat)
    requires forall k | 0 < k < |starts| :: starts[k - 1] + window <= starts[k]
    requires e <= f < |starts|
    ensures starts[e] <= starts[f]
    decreases f
  {
    if e < f {
      StartsOrdered(starts, window, e, f - 1);
    }
  }

  lemma {:induction false} TwoEpochs(log: seq<Hit>, limit: nat, from: int, to: int, e: nat)
    requires forall i | 0 <= i < |log| && from <= log[i].at < to :: log[i].epoch == e || log[i].epoch == e + 1
    ensures AdmittedBetween(log, limit, from, to) <= AdmittedIn(log, limit, e) + AdmittedIn(log, limit, e + 1)
  {
    if log != [] {
      TwoEpochs(log[..|log| - 1], limit, from, to, e);
    }
  }

  lemma {:induction false} OneEpoch(log: seq<Hit>, limit: nat, from: int, to: int, e: nat)
    requires forall i | 0 <= i < |log| && from <= log[i].at < to :: log[i].epoch == e
    ensures AdmittedBetween(log, limit, from, to) <= AdmittedIn(log, limit, e)
  {
    if log != [] {
      OneEpoch(log[..|log| - 1], limit, from, to, e);
    }
  }

  /** An admitted request outside the interval is one fewer inside. */
  lemma {:induction false} OneOutside(log: seq<Hit>, limit: nat, from: int, to: int, e: nat, i: nat)
    requires forall j | 0 <= j < |log| && from <= log[j].at < to :: log[j].epoch == e || log[j].epoch == e + 1
    requires i < |log| && log[i].epoch == e && log[i].value <= limit && !(from <= log[i].at < to)
    ensures AdmittedBetween(log, limit, from, to) < AdmittedIn(log, limit, e) + AdmittedIn(log, limit, e + 1)
  {
    var n := |log| - 1;
    if i == n {
      TwoEpochs(log[..n], limit, from, to, e);
    } else {
      OneOutside(log[..n], limit, from, to, e, i);
    }
  }

  lemma {:induction false} NothingBetween(log: seq<Hit>, limit: nat, from: int, to: int)
    requires forall i | 0 <= i < |log| :: !(from <= log[i].at < to)
    ensures AdmittedBetween(log, limit, from, to) == 0
  {
    if log != [] {
      NothingBetween(log[..|log| - 1], limit, from, to);
    }
  }

  /** The first lifetime seen in an interval. */
  lemma {:induction false} EarliestEpoch(log: seq<Hit>, from: int, to: int, i: nat) returns (first: nat)
    requires i < |log| && from <= log[i].at < to
    ensures first < |log| && from <= log[first].at < to
    ensures forall j | 0 <= j < |log| && from <= log[j].at < to :: log[first].epoch <= log[j].epoch
    decreases log[i].epoch
  {
    if j :| 0 <= j < |log| && from <= log[j].at < to && log[j].epoch < log[i].epoch {
      first := EarliestEpoch(log, from, to, j);
    } else {
      first := i;
    }
  }

  function WindowBound(limit: nat): nat {
    if limit == 0 then 0 else 2 * limit - 1
  }

  /** The rate bound: under any interleaving of increments and expiries, every counter lifetime admits
      at most the limit, and every half-open interval of one window less than twice the limit: the
      request that opened the earlier of two lifetimes always falls outside. */
  lemma RateBound(now: int, steps: seq<Step>, limit: nat, window: nat, from: int)
    ensures var s := Run(Start(now), steps, window);
      && AdmittedBetween(s.log, limit, from, from + window) <= WindowBound(limit)
      && forall e: nat :: AdmittedIn(s.log, limit, e) <= limit
  {
    RunKeeps(now, steps, limit, window);
    WindowBoundHolds(Run(Start(now), steps, window), limit, window, from);
  }

  /** The interval sees at most two lifetimes, the first of them that of `first`. */
  lemma TwoLifetimesAtMost(s: State, window: nat, from: int, first: nat)
    requires Spaced(s, window) && Logged(s)
    requires first < |s.log| && from <= s.log[first].at < from + window
    requires forall j | 0 <= j < |s.log| && from <= s.log[j].at < from + window :: s.log[first].epoch <= s.log[j].epoch
    ensures forall j | 0 <= j < |s.log| && from <= s.log[j].at < from + window ::
              s.log[j].epoch == s.log[first].epoch || s.log[j].epoch == s.log[first].epoch + 1
  {
    var e := s.log[first].epoch;
    forall j | 0 <= j < |s.log| && from <= s.log[j].at < from + window
      ensures s.log[j].epoch == e || s.log[j].epoch == e + 1
    {
      if s.log[j].epoch >= e + 2 {
        LifetimesApart(s, window, first, j);
      }
    }
  }

  /** When the later of two lifetimes is seen, the request that opened the earlier one is not. */
  lemma OpenerOutside(s: State, window: nat, from: int, first: nat, j: nat) returns (opener: nat)
    requires Spaced(s, window) && Logged(s)
    requires first < |s.log| && j < |s.log|
    requires s.log[j].at < from + window && s.log[j].epoch == s.log[first].epoch + 1
    ensures opener < |s.log| && s.log[opener].at < from
    ensures s.log[opener].value == 1 && s.log[opener].epoch == s.log[first].epoch
  {
    var e := s.log[first].epoch;
    LifetimesApart(s, window, first, j);
    assert HitFits(s.starts, s.now, s.log[first]);
    assert Opened(s, e);
    opener :| 0 <= opener < |s.log| && s.log[opener] == Hit(s.starts[e], e, 1);
  }

  lemma TwoLifetimesBound(log: seq<Hit>, limit: nat, from: int, to: int, e: nat, opener: nat)
    requires forall j | 0 <= j < |log| && from <= log[j].at < to :: log[j].epoch == e || log[j].epoch == e + 1
    requires opener < |log| && log[opener].at < from && log[opener].value == 1 && log[opener].epoch == e
    requires AdmittedIn(log, limit, e) <= limit && AdmittedIn(log, limit, e + 1) <= limit
    ensures AdmittedBetween(log, limit, from, to) <= WindowBound(limit)
  {
    TwoEpochs(log, limit, from, to, e);
    if limit > 0 {
      OneOutside(log, limit, from, to, e, opener);
    }
  }

  /** Either only the first lifetime is seen, or the opener of the first one is not. */
  lemma LaterSeen(s: State, window: nat, from: int, first: nat) returns (opener: Option<nat>)
    requires Spaced(s, window) && Logged(s)
    requires first < |s.log| && from <= s.log[first].at < from + window
    requires forall j | 0 <= j < |s.log| && from <= s.log[j].at < from + window ::
      s.log[j].epoch == s.log[first].epoch || s.log[j].epoch == s.log[first].epoch + 1
    ensures opener.None? ==>
      forall j | 0 <= j < |s.log| && from <= s.log[j].at < from + window :: s.log[j].epoch == s.log[first].epoch
    ensures opener.Some? ==>
      && opener.value < |s.log| && s.log[opener.value].at < from
      && s.log[opener.value].value == 1 && s.log[opener.value].epoch == s.log[first].epoch
  {
    if j: nat :| j < |s.log| && from <= s.log[j].at < from + window && s.log[j].epoch == s.log[first].epoch + 1 {
      var found := OpenerOutside(s, window, from, first, j);
      opener := Some(found);
    } else {
      opener := None;
    }
  }

  lemma CountedAt(s: State, limit: nat, e: nat)
    requires Counted(s, limit)
    ensures AdmittedIn(s.log, limit, e) <= limit
  {
  }

  lemma SeenBound(s: State, limit: nat, window: nat, from: int, i: nat)
    requires Spaced(s, window) && Logged(s)
    requires i < |s.log| && from <= s.log[i].at < from + window
    requires forall e: nat :: AdmittedIn(s.log, limit, e) <= limit
    ensures AdmittedBetween(s.log, limit, from, from + window) <= WindowBound(limit)
  {
    var first := EarliestEpoch(s.log, from, from + window, i);
    var e := s.log[first].epoch;
    TwoLifetimesAtMost(s, window, from, first);
    var opener := LaterSeen(s, window, from, first);
    if opener.Some? {
      TwoLifetimesBound(s.log, limit, from, from + window, e, opener.value);
    } else {
      OneEpoch(s.log, limit, from, from + window, e);
    }
  }

  lemma WindowBoundHolds(s: State, limit: nat, window: nat, from: int)
    requires Spaced(s, window) && Logged(s) && Counted(s, limit)
    ensures AdmittedBetween(s.log, limit, from, from + window) <= WindowBound(limit)
  {
    if i: nat :| i < |s.log| && from <= s.log[i].at < from + window {
      forall e: nat ensures AdmittedIn(s.log, limit, e) <= limit {
        CountedAt(s, limit, e);
      }
      SeenBound(s, limit, window, from, i);
    } else {
      NothingBetween(s.log, limit, from, from + window);
    }
  }

  // ---- the bound is attained ----

  lemma RunThen(s: State, steps: seq<Step>, step: Step, window: nat)
    ensures Run(s, steps + [step], window) == Apply(Run(s, steps, window), step, window)
  {
    assert (steps + [step])[..|steps|] == steps;
  }

  lemma OneMoreBetween(log: seq<Hit>, h: Hit, limit: nat, from: int, to: int)
    requires from <= h.at < to && h.value <= limit
    ensures AdmittedBetween(log + [h], limit, from, to) == AdmittedBetween(log, limit, from, to) + 1
  {
    assert (log + [h])[..|log|] == log;
  }

  /** One more request on a live counter. */
  lemma OneMoreRequest(s: State, limit: nat, window: nat, from: int, to: int)
    requires s.counter.Present? && s.counter.count < limit && from <= s.now < to
    ensures var t := Apply(s, Increment, window);
      && t.now == s.now && t.starts == s.starts && t.counter == s.counter.(count := s.counter.count + 1)
      && AdmittedBetween(t.log, limit, from, to) == AdmittedBetween(s.log, limit, from, to) + 1
  {
    OneMoreBetween(s.log, Hit(s.now, Epoch(s), s.counter.count + 1), limit, from, to);
  }

  function AfterBurst(s: State, n: nat, window: nat): State {
    if n == 0 then s else Apply(AfterBurst(s, n - 1, window), Increment, window)
  }

  lemma {:induction false} BurstAdmitted(s: State, n: nat, limit: nat, window: nat, from: int, to: int)
    requires s.counter.Present? && s.counter.count + n <= limit && from <= s.now < to
    ensures var t := AfterBurst(s, n, window);
      && t.now == s.now && t.starts == s.starts && t.counter == s.counter.(count := s.counter.count + n)
      && AdmittedBetween(t.log, limit, from, to) == AdmittedBetween(s.log, limit, from, to) + n
  {
    if n > 0 {
      BurstAdmitted(s, n - 1, limit, window, from, to);
      OneMoreRequest(AfterBurst(s, n - 1, window), limit, window, from, to);
    }
  }

  ghost predicate Reached(s: State, window: nat) {
    exists steps :: Run(Start(0), steps, window) == s
  }

  lemma ReachedThen(s: State, step: Step, window: nat)
    requires Reached(s, window)
    ensures Reached(Apply(s, step, window), window)
  {
    var steps :| Run(Start(0), steps, window) == s;
    RunThen(Start(0), steps, step, window);
  }

  lemma {:induction false} ReachedBurst(s: State, n: nat, window: nat)
    requires Reached(s, window)
    ensures Reached(AfterBurst(s, n, window), window)
  {
    if n > 0 {
      ReachedBurst(s, n - 1, window);
      ReachedThen(AfterBurst(s, n - 1, window), Increment, window);
    }
  }

  /** One request opens a counter, and time passes until just before it lapses. */
  lemma OpenedOnce(window: nat) returns (s: State)
    requires window > 1
    ensures Reached(s, window) && s == State(window - 1, Present(1, Some(window)), [0], [Hit(0, 0, 1)])
  {
    assert Run(Start(0), [], window) == Start(0);
    ReachedThen(Start(0), Increment, window);
    var s1 := Apply(Start(0), Increment, window);
    ReachedThen(s1, SetExpiry, window);
    var s2 := Apply(s1, SetExpiry, window);
    ReachedThen(s2, Wait(window - 1), window);
    s := Apply(s2, Wait(window - 1), window);
  }

  lemma OnlyOpener(limit: nat, window: nat)
    requires window > 1
    ensures AdmittedBetween([Hit(0, 0, 1)], limit, window - 1, 2 * window - 1) == 0
  {
    assert [Hit(0, 0, 1)][..0] == [];
  }

  /** A moment later the counter lapses and the next request opens a new one. */
  lemma Reopened(s: State, window: nat) returns (t: State)
    requires Reached(s, window) && s.counter.Present? && s.counter.expiresAt == Some(s.now + 1)
    ensures Reached(t, window)
    ensures t == State(s.now + 1, Present(1, None), s.starts + [s.now + 1],
                       s.log + [Hit(s.now + 1, |s.starts|, 1)])
  {
    ReachedThen(s, Wait(1), window);
    var s1 := Apply(s, Wait(1), window);
    ReachedThen(s1, Lapse, window);
    var s2 := Apply(s1, Lapse, window);
    ReachedThen(s2, Increment, window);
    t := Apply(s2, Increment, window);
  }

  lemma BeforeTheLapse(limit: nat, window: nat) returns (s: State)
    requires limit > 0 && window > 1
    ensures Reached(s, window) && s.now == window - 1 && s.counter == Present(limit, Some(window))
    ensures AdmittedBetween(s.log, limit, window - 1, 2 * window - 1) == limit - 1
  {
    var single := OpenedOnce(window);
    OnlyOpener(limit, window);
    ReachedBurst(single, limit - 1, window);
    BurstAdmitted(single, limit - 1, limit, window, window - 1, 2 * window - 1);
    s := AfterBurst(single, limit - 1, window);
  }

  lemma AfterTheLapse(s: State, limit: nat, window: nat, from: int, to: int) returns (t: State)
    requires Reached(s, window) && s.counter.Present? && s.counter.expiresAt == Some(s.now + 1)
    requires limit > 0 && from <= s.now + 1 < to
    ensures Reached(t, window)
    ensures AdmittedBetween(t.log, limit, from, to) == AdmittedBetween(s.log, limit, from, to) + limit
  {
    var reopened := Reopened(s, window);
    OneMoreBetween(s.log, Hit(s.now + 1, |s.starts|, 1), limit, from, to);
    ReachedBurst(reopened, limit - 1, window);
    BurstAdmitted(reopened, limit - 1, limit, window, from, to);
    t := AfterBurst(reopened, limit - 1, window);
  }

  /** For every limit and window some run admits as many as the bound allows: one request opens a
      counter, the rest of its limit comes just before it lapses, and a full limit just after. */
  lemma BoundIsAttained(limit: nat, window: nat) returns (steps: seq<Step>)
    requires limit > 0 && window > 1
    ensures AdmittedBetween(Run(Start(0), steps, window).log, limit, window - 1, window - 1 + window) ==
            WindowBound(limit)
  {
    var s := BeforeTheLapse(limit, window);
    var t := AfterTheLapse(s, limit, window, window - 1, 2 * window - 1);
    steps :| Run(Start(0), steps, window) == t;
  }

  // ---- a lost EXPIRE ----

  ghost predicate NoExpiry(steps: seq<Step>) {
    SetExpiry !in steps
  }

  function Increments(steps: seq<Step>): nat {
    if steps == [] then 0
    else Increments(steps[..|steps| - 1]) + (if steps[|steps| - 1].Increment? then 1 else 0)
  }

  /** Only the request that was given the value 1 sets an expiry. When that command is lost the counter
      never lapses: every later value is larger than all before it, whatever time passes. */
  lemma {:induction false} LostExpiryCountsForever(s: State, steps: seq<Step>, window: nat)
    requires s.counter.Present? && s.counter.expiresAt == None && NoExpiry(steps)
    ensures Run(s, steps, window).counter == Present(s.counter.count + Increments(steps), None)
  {
    if steps != [] {
      var n := |steps| - 1;
      assert steps[n] in steps && forall x | x in steps[..n] :: x in steps;
      LostExpiryCountsForever(s, steps[..n], window);
    }
  }

  // ---- the middleware ----

  /** Limits of `settings`, as far as they matter here. */
  datatype Limits = Limits(override: Option<nat>, login: nat, maxFailedLogins: nat, other: nat)

  /** `_resolve_limit` on the login path and elsewhere. Unless it is overridden, the login limit leaves
      room for the lockout: an account can be driven into it within one lifetime of the counter. */
  function ResolveLimit(limits: Limits, login: bool): (limit: nat)
    ensures limits.override.Some? ==> limits.override == Some(limit)
    ensures login && limits.override.None? ==>
              && limit >= limits.maxFailedLogins + 2 && limit >= limits.login
              && (limit == limits.maxFailedLogins + 2 || limit == limits.login)
    ensures !login && limits.override.None? ==> limit == limits.other
  {
    if limits.override.Some? then limits.override.value
    else if login then
      (if limits.login >= limits.maxFailedLogins + 2 then limits.login else limits.maxFailedLogins + 2)
    else limits.other
  }

  datatype Outcome =
    | Unavailable                // 503: the backend failed on a path that fails closed
    | Unlimited                  // the backend failed on any other path
    | TooMany(retryAfter: nat)   // 429
    | Admitted(remaining: nat)

  /** Which of the request's commands the backend fails on, if any. */
  datatype Backend = Up | IncrFails | ExpireFails | TtlFails

  /** The counter after one request with no other command in between. */
  function AfterRequest(s: State, window: nat, backend: Backend): State {
    var counted := Apply(s, Increment, window);
    if backend.IncrFails? then s
    else if s.counter.Absent? && !backend.ExpireFails? then Apply(counted, SetExpiry, window)
    else counted
  }

  class Limiter {
    var now: int
    var counter: Counter
    ghost var starts: seq<int>
    ghost var log: seq<Hit>

    ghost function View(): State
      reads this
    {
      State(now, counter, starts, log)
    }

    ghost predicate Valid()
      reads this
    {
      counter.Present? ==> counter.count > 0
    }

    constructor (clock: int)
      ensures Valid() && View() == Start(clock)
    {
      now, counter := clock, Absent;
      starts, log := [], [];
    }

    method Incr(ghost window: nat) returns (value: nat)
      requires Valid()
      modifies this
      ensures Valid() && View() == Apply(old(View()), Increment, window)
      ensures log == old(log) + [Hit(now, Epoch(View()), value)]
      ensures counter.Present? && counter.count == value && (value == 1 <==> old(counter).Absent?)
    {
      if counter.Absent? {
        value := 1;
        starts := starts + [now];
        counter := Present(1, None);
      } else {
        value := counter.count + 1;
        counter := counter.(count := value);
      }
      log := log + [Hit(now, Epoch(View()), value)];
    }

    method Expire(window: nat)
      requires Valid() && counter.Present? && counter.expiresAt.None?
      modifies this`counter
      ensures Valid() && View() == Apply(old(View()), SetExpiry, window)
    {
      counter := counter.(expiresAt := Some(now + window));
    }

    /** The TTL command: -2 without a counter, -1 without an expiry. */
    method Ttl() returns (ttl: int)
      ensures ttl == (if counter.Absent? then -2 else if counter.expiresAt.None? then -1
                      else counter.expiresAt.value - now)
    {
      if counter.Absent? { return -2; }
      return if counter.expiresAt.None? then -1 else counter.expiresAt.value - now;
    }

    method Dispatch(limits: Limits, login: bool, failClosed: bool, window: nat, backend: Backend)
      returns (outcome: Outcome)
      requires Valid()
      modifies this
      ensures Valid() && View() == AfterRequest(old(View()), window, backend)
      ensures outcome.Unavailable? || outcome.Unlimited? <==>
              backend.IncrFails? || backend.TtlFails? || (backend.ExpireFails? && old(counter).Absent?)
      ensures outcome.Unavailable? ==> failClosed
      ensures outcome.Unlimited? ==> !failClosed
      ensures outcome.Admitted? || outcome.TooMany? ==>
                (var limit := ResolveLimit(limits, login);
                 && |log| == |old(log)| + 1
                 && (outcome.Admitted? <==> log[|old(log)|].value <= limit)
                 && (outcome.Admitted? ==> outcome.remaining + counter.count == limit)
                 && log[|old(log)|].value == (if old(counter).Absent? then 1 else old(counter).count + 1)
                 && (outcome.TooMany? ==>
                       outcome.retryAfter == if counter.expiresAt.Some? && now < counter.expiresAt.value
                                             then counter.expiresAt.value - now else 0)
                 && (old(counter).Absent? ==> counter.expiresAt == Some(now + window))
                 && (old(counter).Present? ==> counter.expiresAt == old(counter).expiresAt))
    {
      var limit := ResolveLimit(limits, login);
      var failed := if failClosed then Unavailable else Unlimited;
      if backend.IncrFails? {
        return failed;
      }
      var current := Incr(window);
      if current == 1 {
        if backend.ExpireFails? {
          return failed;
        }
        Expire(window);
      }
      if backend.TtlFails? {
        return failed;
      }
      var ttl := Ttl();
      if current > limit {
        return TooMany(if ttl > 0 then ttl else 0);
      }
      return Admitted(limit - current);
    }
  }
}
