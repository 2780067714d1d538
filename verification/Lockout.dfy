/** The login lockout: backend/app/services/auth_domain_service.py and `AuthService.login`. A login reads
    the user row without a lock, checks lock, password and status in this order, and writes the row
    later from what it has read; other logins of the same account may come between. Times and the
    lockout duration share one unit; maximum and duration are positive, as the configuration requires. */
module Lockout {
  import opened Basics

  datatype Outcome = Locked(until: int) | BadPassword(lockoutApplied: bool) | Inactive | LoggedIn

  /** What a login in flight has read, and when. */
  datatype Look = Look(count: nat, lock: Option<int>, at: int)

  /** The user row, the logins in flight (None once they have ended), and as history the times of the
      failed logins that were verified since the last successful one. */
  datatype State = State(
    now: int, failedCount: nat, lockedUntil: Option<int>, looks: seq<Option<Look>>, failures: seq<int>)

  datatype Step =
    | Wait(elapsed: nat)
    | LookAt                                         // read the row; an active lock ends the login here
    | Finish(login: nat, correct: bool, active: bool)  // password and status checked, row written

  datatype Config = Config(max: nat, lockout: nat)

  /** `get_active_lockout_until`. */
  function ActiveLockout(lockedUntil: Option<int>, now: int): Option<int> {
    if lockedUntil.Some? && lockedUntil.value > now then lockedUntil else None
  }

  function LookStep(s: State): State {
    if ActiveLockout(s.lockedUntil, s.now).Some? then s
    else s.(looks := s.looks + [Some(Look(s.failedCount, s.lockedUntil, s.now))])
  }

  predicate InFlight(s: State, i: nat) {
    i < |s.looks| && s.looks[i].Some?
  }

  function Ended(s: State, i: nat): State
    requires i < |s.looks|
  {
    s.(looks := s.looks[i := None])
  }

  /** `apply_failed_login` and its commit: the count comes from the look, and the lock is written only
      when it is set. */
  function Fail(s: State, i: nat, config: Config): State
    requires InFlight(s, i)
  {
    var look := s.looks[i].value;
    var count := look.count + 1;
    Ended(s, i).(failedCount := count,
                 lockedUntil := if count >= config.max then Some(look.at + config.lockout) else s.lockedUntil,
                 failures := s.failures + [look.at])
  }

  /** `apply_successful_login` and its commit: a column that already had its new value when it was read
      is not written. */
  function Succeed(s: State, i: nat): State
    requires InFlight(s, i)
  {
    var look := s.looks[i].value;
    Ended(s, i).(failedCount := if look.count != 0 then 0 else s.failedCount,
                 lockedUntil := if look.lock.Some? then None else s.lockedUntil,
                 failures := [])
  }

  function FinishStep(s: State, i: nat, correct: bool, active: bool, config: Config): State
    requires InFlight(s, i)
  {
    if !correct then Fail(s, i, config) else if !active then Ended(s, i) else Succeed(s, i)
  }

  function Apply(s: State, step: Step, config: Config): State {
    match step
    case Wait(elapsed) => s.(now := s.now + elapsed)
    case LookAt => LookStep(s)
    case Finish(i, correct, active) => if InFlight(s, i) then FinishStep(s, i, correct, active, config) else s
  }

  function Run(s: State, steps: seq<Step>, config: Config): State {
    if steps == [] then s else Apply(Run(s, steps[..|steps| - 1], config), steps[|steps| - 1], config)
  }

  function NewUser(now: int): State {
    State(now, 0, None, [], [])
  }

  /** One login that nothing disturbs, with its answer. */
  function Login(s: State, correct: bool, active: bool, config: Config): (State, Outcome) {
    var locked := ActiveLockout(s.lockedUntil, s.now);
    if locked.Some? then (s, Locked(locked.value))
    else
      var t := FinishStep(LookStep(s), |s.looks|, correct, active, config);
      (t, if !correct then BadPassword(t.failedCount >= config.max) else if !active then Inactive else LoggedIn)
  }

  /** The answer of an undisturbed login and what it leaves behind: a lock that has not passed stops it; a wrong
      password is counted and from the max-th on locks for a full period; a right one of an active user
      clears count and lock. */
  lemma LoginIff(s: State, correct: bool, active: bool, config: Config)
    ensures var (t, outcome) := Login(s, correct, active, config);
      var locked := s.lockedUntil.Some? && s.now < s.lockedUntil.value;
      var relocks := s.failedCount + 1 >= config.max;
      && outcome == (if locked then Locked(s.lockedUntil.value) else if !correct then BadPassword(relocks)
                     else if !active then Inactive else LoggedIn)
      && t.now == s.now
      && (outcome.Locked? ==> t == s)
      && (outcome.BadPassword? ==>
            && t.failedCount == s.failedCount + 1
            && t.lockedUntil == if relocks then Some(s.now + config.lockout) else s.lockedUntil)
      && (outcome.Inactive? ==> t.failedCount == s.failedCount && t.lockedUntil == s.lockedUntil)
      && (outcome.LoggedIn? ==> t.failedCount == 0 && t.lockedUntil == None)
  {
  }

  // ---- the invariant ----

  /** The count counts the failures, the lock is that of the last one, and from the max-th on each failure
      comes a lockout period after the one before. */
  ghost predicate Inv(s: State, config: Config) {
    var n := |s.failures|;
    && s.failedCount == n
    && (forall k | 0 <= k < n :: s.failures[k] <= s.now)
    && (s.lockedUntil == if n >= config.max then Some(LastOr(s.failures, s.now) + config.lockout) else None)
    && (forall k | 0 < k < n && config.max <= k :: s.failures[k - 1] + config.lockout <= s.failures[k])
    && (forall i | 0 <= i < |s.looks| && s.looks[i].Some? :: Unlocked(s.looks[i].value, s.now))
  }

  predicate Unlocked(look: Look, now: int) {
    look.at <= now && ActiveLockout(look.lock, look.at).None?
  }

  function LastOr(failures: seq<int>, now: int): int {
    if failures == [] then now else failures[|failures| - 1]
  }

  /** A wrong password is recorded rightly if the count is as it was read, and no lock that is in the row
      now was already running then. */
  predicate FailureFits(s: State, look: Look) {
    s.failedCount == look.count && ActiveLockout(s.lockedUntil, look.at).None?
  }

  /** A success is recorded rightly if whatever has to be reset was there to be seen. */
  predicate SuccessFits(s: State, look: Look) {
    (s.failedCount != 0 ==> look.count != 0) && (s.lockedUntil.Some? ==> look.lock.Some?)
  }

  predicate Fits(s: State, i: nat, correct: bool, active: bool)
    requires InFlight(s, i)
  {
    if !correct then FailureFits(s, s.looks[i].value)
    else active ==> SuccessFits(s, s.looks[i].value)
  }

  lemma EndedKeeps(s: State, i: nat, config: Config)
    requires Inv(s, config) && i < |s.looks|
    ensures Inv(Ended(s, i), config)
  {
  }

  lemma FailKeepsIff(s: State, i: nat, config: Config)
    requires config.max > 0 && Inv(s, config) && InFlight(s, i)
    ensures Inv(Fail(s, i, config), config) <==> FailureFits(s, s.looks[i].value)
  {
    var look := s.looks[i].value;
    var t := Fail(s, i, config);
    var n := |s.failures|;
    assert Unlocked(look, s.now);
    assert t.failures[n] == look.at;
    if n >= config.max {
      assert s.lockedUntil == Some(s.failures[n - 1] + config.lockout);
      assert t.failures[n - 1] == s.failures[n - 1];
    }
    if FailureFits(s, look) {
      forall k | 0 < k < n + 1 && config.max <= k ensures t.failures[k - 1] + config.lockout <= t.failures[k] {
        if k < n {
          assert t.failures[k] == s.failures[k];
        }
      }
    }
  }

  lemma SucceedKeepsIff(s: State, i: nat, config: Config)
    requires config.max > 0 && Inv(s, config) && InFlight(s, i)
    ensures Inv(Succeed(s, i), config) <==> SuccessFits(s, s.looks[i].value)
  {
  }

  /** The exact condition: from any state that satisfies the invariant, a login that writes keeps it if and
      only if what it has read still fits the row. */
  lemma FinishKeepsIff(s: State, i: nat, correct: bool, active: bool, config: Config)
    requires config.max > 0 && Inv(s, config) && InFlight(s, i)
    ensures Inv(FinishStep(s, i, correct, active, config), config) <==> Fits(s, i, correct, active)
  {
    if !correct {
      FailKeepsIff(s, i, config);
    } else if active {
      SucceedKeepsIff(s, i, config);
    } else {
      EndedKeeps(s, i, config);
    }
  }

  /** In particular a login fits whose row nobody has changed since it was read. */
  lemma UnchangedFits(s: State, i: nat, correct: bool, active: bool, config: Config)
    requires Inv(s, config) && InFlight(s, i)
    requires s.looks[i].value.count == s.failedCount && s.looks[i].value.lock == s.lockedUntil
    ensures Fits(s, i, correct, active)
  {
    assert Unlocked(s.looks[i].value, s.now);
  }

  lemma LookKeeps(s: State, config: Config)
    requires Inv(s, config)
    ensures Inv(LookStep(s), config)
  {
  }

  lemma LoginKeeps(s: State, correct: bool, active: bool, config: Config)
    requires config.max > 0 && Inv(s, config)
    ensures Inv(Login(s, correct, active, config).0, config)
  {
    if ActiveLockout(s.lockedUntil, s.now).None? {
      LookKeeps(s, config);
      UnchangedFits(LookStep(s), |s.looks|, correct, active, config);
      FinishKeepsIff(LookStep(s), |s.looks|, correct, active, config);
    }
  }

  // ---- runs ----

  predicate Guarded(s: State, step: Step) {
    step.Finish? && InFlight(s, step.login) ==> Fits(s, step.login, step.correct, step.active)
  }

  lemma StepKeepsIff(s: State, step: Step, config: Config)
    requires config.max > 0 && Inv(s, config)
    ensures Inv(Apply(s, step, config), config) <==> Guarded(s, step)
  {
    if step.LookAt? {
      LookKeeps(s, config);
    } else if step.Finish? && InFlight(s, step.login) {
      FinishKeepsIff(s, step.login, step.correct, step.active, config);
    } else if step.Wait? {
      WaitKeeps(s, step.elapsed, config);
    }
  }

  lemma WaitKeeps(s: State, elapsed: nat, config: Config)
    requires config.max > 0 && Inv(s, config)
    ensures Inv(s.(now := s.now + elapsed), config)
  {
  }

  predicate GuardedRun(s: State, steps: seq<Step>, config: Config) {
    steps != [] ==>
      var n := |steps| - 1;
      GuardedRun(s, steps[..n], config) && Guarded(Run(s, steps[..n], config), steps[n])
  }

  ghost predicate InvAlong(s: State, steps: seq<Step>, config: Config) {
    Inv(Run(s, steps, config), config) && (steps != [] ==> InvAlong(s, steps[..|steps| - 1], config))
  }

  /** In every run the invariant holds all along if and only if every login that writes fits its row. */
  lemma {:induction false} InvAlongIff(now: int, steps: seq<Step>, config: Config)
    requires config.max > 0
    ensures InvAlong(NewUser(now), steps, config) <==> GuardedRun(NewUser(now), steps, config)
    ensures GuardedRun(NewUser(now), steps, config) ==> Inv(Run(NewUser(now), steps, config), config)
  {
    if steps != [] {
      var n := |steps| - 1;
      InvAlongIff(now, steps[..n], config);
      if GuardedRun(NewUser(now), steps[..n], config) {
        StepKeepsIff(Run(NewUser(now), steps[..n], config), steps[n], config);
      }
    }
  }

  ghost predicate GuardedReach(s: State, config: Config) {
    exists now, steps :: GuardedRun(NewUser(now), steps, config) && Run(NewUser(now), steps, config) == s
  }

  lemma ReachedInv(s: State, config: Config)
    requires config.max > 0 && GuardedReach(s, config)
    ensures Inv(s, config)
  {
    var now, steps :| GuardedRun(NewUser(now), steps, config) && Run(NewUser(now), steps, config) == s;
    InvAlongIff(now, steps, config);
  }

  lemma {:induction false} Spread(failures: seq<int>, max: nat, lockout: nat, n: nat)
    requires 0 < max <= n <= |failures|
    requires forall k | 0 < k < |failures| && max <= k :: failures[k - 1] + lockout <= failures[k]
    ensures failures[max - 1] + (n - max) * lockout <= failures[n - 1]
  {
    if n > max {
      Spread(failures, max, lockout, n - 1);
      assert (n - 1 - max) * lockout + lockout == (n - max) * lockout;
    }
  }

  /** The lockout bound: as long as every login that writes fits its row, and with no successful login in
      between, the n-th verified failure comes at least (n - max) lockout periods after the max-th. */
  lemma LockoutBound(s: State, config: Config, n: nat)
    requires GuardedReach(s, config) && 0 < config.max <= n <= |s.failures|
    ensures s.failures[config.max - 1] + (n - config.max) * config.lockout <= s.failures[n - 1]
  {
    ReachedInv(s, config);
    Spread(s.failures, config.max, config.lockout, n);
  }

  /** A login that finds the account locked verifies no password and writes nothing: right and wrong
      passwords are told the same. */
  lemma LockedAttemptsAreBlind(s: State, config: Config, correct: bool, active: bool)
    requires ActiveLockout(s.lockedUntil, s.now).Some?
    ensures LookStep(s) == s
    ensures Login(s, correct, active, config) == (s, Locked(s.lockedUntil.value))
  {
  }

  /** When a lock lapses the count is kept: the very next failure locks again for a full period. */
  lemma NextFailureRelocks(s: State, config: Config, active: bool)
    requires config.max > 0 && GuardedReach(s, config) && |s.failures| >= config.max
    ensures var (t, outcome) := Login(s, false, active, config);
      outcome.Locked? || (outcome == BadPassword(true) && t.lockedUntil == Some(s.now + config.lockout))
  {
    ReachedInv(s, config);
  }

  // ---- logins side by side ----

  function Looks(n: nat): seq<Step> {
    if n == 0 then [] else Looks(n - 1) + [LookAt]
  }

  function Misses(n: nat): seq<Step> {
    if n == 0 then [] else Misses(n - 1) + [Finish(n - 1, false, true)]
  }

  lemma RunThen(s: State, steps: seq<Step>, step: Step, config: Config)
    ensures Run(s, steps + [step], config) == Apply(Run(s, steps, config), step, config)
  {
    assert (steps + [step])[..|steps|] == steps;
  }

  lemma {:induction false} LooksRun(n: nat, config: Config)
    ensures Run(NewUser(0), Looks(n), config) == State(0, 0, None, seq(n, i => Some(Look(0, None, 0))), [])
  {
    if n > 0 {
      LooksRun(n - 1, config);
      RunThen(NewUser(0), Looks(n - 1), LookAt, config);
    }
  }

  lemma {:induction false} MissesRun(n: nat, m: nat, config: Config)
    requires 0 < m <= n && config.max > 1
    ensures var s := Run(NewUser(0), Looks(n) + Misses(m), config);
      && s.failedCount == 1 && s.lockedUntil == None && s.failures == seq(m, i => 0) && |s.looks| == n
      && forall i | m <= i < n :: s.looks[i] == Some(Look(0, None, 0))
  {
    LooksRun(n, config);
    if m == 1 {
      assert Misses(1) == [Finish(0, false, true)];
    } else {
      MissesRun(n, m - 1, config);
      assert Looks(n) + Misses(m) == (Looks(n) + Misses(m - 1)) + [Finish(m - 1, false, true)];
    }
    var before := if m == 1 then Looks(n) else Looks(n) + Misses(m - 1);
    RunThen(NewUser(0), before, Finish(m - 1, false, true), config);
  }

  /** Without the condition there is no bound: any number of logins that have read the row before the first
      of them writes it are all verified at once, are counted as one, and lock nothing. */
  lemma ParallelFailuresCountOnce(n: nat, config: Config) returns (s: State)
    requires n > 0 && config.max > 1
    ensures s == Run(NewUser(0), Looks(n) + Misses(n), config)
    ensures |s.failures| == n && (forall k | 0 <= k < n :: s.failures[k] == 0)
    ensures s.failedCount == 1 && s.lockedUntil == None
  {
    MissesRun(n, n, config);
    s := Run(NewUser(0), Looks(n) + Misses(n), config);
  }

  // ---- the user row, updated in place ----

  class User {
    var clock: int
    var failedLoginCount: nat
    var lockedUntil: Option<int>
    /** Logins in flight, kept by the workers that serve them. */
    var looks: seq<Option<Look>>
    ghost var failures: seq<int>

    ghost function View(): State
      reads this
    {
      State(clock, failedLoginCount, lockedUntil, looks, failures)
    }

    constructor (now: int)
      ensures View() == NewUser(now)
    {
      clock, failedLoginCount, lockedUntil, looks := now, 0, None, [];
      failures := [];
    }

    /** Reads the row. An active lock is the answer; otherwise the login goes on with what it has read. */
    method BeginLogin() returns (locked: Option<int>)
      modifies this`looks
      ensures View() == LookStep(old(View()))
      ensures locked == ActiveLockout(lockedUntil, clock)
      ensures locked.None? ==> |looks| == |old(looks)| + 1 && InFlight(View(), |old(looks)|)
    {
      locked := ActiveLockout(lockedUntil, clock);
      if locked.None? {
        looks := looks + [Some(Look(failedLoginCount, lockedUntil, clock))];
      }
    }

    method ApplyFailedLogin(i: nat, config: Config) returns (lockoutApplied: bool)
      requires InFlight(View(), i)
      modifies this`failedLoginCount, this`lockedUntil, this`looks, this`failures
      ensures View() == Fail(old(View()), i, config)
      ensures lockoutApplied <==> failedLoginCount >= config.max
      ensures lockedUntil ==
        if lockoutApplied then Some(old(looks)[i].value.at + config.lockout) else old(lockedUntil)
    {
      var look := looks[i].value;
      failedLoginCount := look.count + 1;
      failures := failures + [look.at];
      lockoutApplied := false;
      if failedLoginCount >= config.max {
        lockedUntil := Some(look.at + config.lockout);
        lockoutApplied := true;
      }
      looks := looks[i := None];
    }

    method ApplySuccessfulLogin(i: nat, active: bool) returns (ok: bool)
      requires InFlight(View(), i)
      modifies this`failedLoginCount, this`lockedUntil, this`looks, this`failures
      ensures ok == active
      ensures View() == if ok then Succeed(old(View()), i) else Ended(old(View()), i)
      ensures ok && old(SuccessFits(View(), looks[i].value)) ==> failedLoginCount == 0 && lockedUntil == None
    {
      var look := looks[i].value;
      looks := looks[i := None];
      if !active {
        return false;
      }
      if look.count != 0 {
        failedLoginCount := 0;
      }
      if look.lock.Some? {
        lockedUntil := None;
      }
      failures := [];
      return true;
    }

    /** One login with nothing between its parts. */
    method LogIn(correct: bool, active: bool, config: Config) returns (outcome: Outcome)
      modifies this
      ensures (View(), outcome) == Login(old(View()), correct, active, config)
    {
      var i := |looks|;
      var locked := BeginLogin();
      if locked.Some? {
        return Locked(locked.value);
      }
      if !correct {
        var applied := ApplyFailedLogin(i, config);
        return BadPassword(applied);
      }
      var ok := ApplySuccessfulLogin(i, active);
      return if ok then LoggedIn else Inactive;
    }
  }
}
