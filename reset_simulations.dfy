/**
 * The hourly job that resets simulation counters: for every subscriber whose
 * local midnight has passed since the last reset, today's count goes back to
 * zero and the unused allowance joins the rollover pool; when the month number
 * changed, the monthly count and the pool are cleared.
 */
module ResetSimulations {
  import opened Wrappers
  import CronAuth
  import Quota

  /** The columns of a `profiles` row the job reads or writes; times are instants in milliseconds. */
  datatype Profile = Profile(
    id: string,
    subscriptionStatus: string,
    resetTimezone: Option<string>,
    dailyLimit: int,
    dailyCount: int,
    monthlyCount: int,
    rollover: int,
    lastReset: int)

  /**
   * The user's local clock, as the job derives it from their time zone: the
   * instant of today's local midnight and the local year and month. An unknown
   * time zone makes the conversion throw, with a message.
   */
  datatype LocalClock = BadZone(message: string) | LocalTime(midnight: int, year: int, month: int)

  /**
   * The environment: the local clock for a time-zone name at the moment the
   * job runs, and the (year, month) the server's calendar gives an instant.
   */
  datatype Env = Env(localTime: string -> LocalClock, calendarOf: int -> (int, int))

  /** Only paying or trialing subscribers are visited. */
  predicate Visited(p: Profile) {
    p.subscriptionStatus == "active" || p.subscriptionStatus == "trialing"
  }

  /** The reset time zone, New York when none is set. */
  function TimeZone(p: Profile): (z: string)
    ensures p.resetTimezone.Some? && p.resetTimezone.value != "" ==> z == p.resetTimezone.value
    ensures p.resetTimezone.None? || p.resetTimezone.value == "" ==> z == "America/New_York"
  {
    match p.resetTimezone
    case Some(z) => if z != "" then z else "America/New_York"
    case None => "America/New_York"
  }

  /** The pool after a daily reset: the job adds `limit - count` without clamping it at zero. */
  function DailyRollover(p: Profile): (r: int)
    ensures r <= 3 * p.dailyLimit
    ensures r == p.rollover + (p.dailyLimit - p.dailyCount) || r == 3 * p.dailyLimit
    ensures p.dailyCount > p.dailyLimit && p.rollover <= 3 * p.dailyLimit ==> r < p.rollover
  {
    Quota.Min(p.rollover + (p.dailyLimit - p.dailyCount), p.dailyLimit * 3)
  }

  /** One user's reset: the new row and which of the two resets fired. */
  datatype Outcome = Outcome(profile: Profile, daily: bool, monthly: bool)

  /**
   * The transition applied to one visited user. `lastResetMonth` is the month
   * of the stored last reset and `currentMonth` the user's local month.
   */
  function ResetUser(p: Profile, midnight: int, lastResetMonth: int, currentMonth: int): (o: Outcome)
    ensures o.daily <==> p.lastReset < midnight
    ensures o.monthly <==> lastResetMonth != currentMonth
    ensures o.profile.id == p.id && o.profile.subscriptionStatus == p.subscriptionStatus
    ensures o.profile.resetTimezone == p.resetTimezone && o.profile.dailyLimit == p.dailyLimit
    ensures o.daily ==> o.profile.dailyCount == 0 && o.profile.lastReset == midnight
    ensures !o.daily ==> o.profile.dailyCount == p.dailyCount && o.profile.lastReset == p.lastReset
    ensures o.monthly ==> o.profile.monthlyCount == 0 && o.profile.rollover == 0
    ensures !o.monthly ==> o.profile.monthlyCount == p.monthlyCount
    ensures o.daily && !o.monthly ==> o.profile.rollover == DailyRollover(p)
    ensures !o.daily && !o.monthly ==> o.profile == p
  {
    var daily := p.lastReset < midnight;
    var afterDaily := if daily then p.(dailyCount := 0, rollover := DailyRollover(p), lastReset := midnight) else p;
    var monthly := lastResetMonth != currentMonth;
    var afterMonthly := if monthly then afterDaily.(monthlyCount := 0, rollover := 0) else afterDaily;
    Outcome(afterMonthly, daily, monthly)
  }

  /** What the job does with one row of the table. */
  datatype RowEffect = Skipped | Failed(message: string) | Reset(outcome: Outcome)

  function Effect(p: Profile, env: Env): (e: RowEffect)
    ensures e.Skipped? <==> !Visited(p)
    ensures e.Failed? ==> env.localTime(TimeZone(p)).BadZone?
                          && e.message == "User " + p.id + ": " + env.localTime(TimeZone(p)).message
    ensures e.Reset? ==> env.localTime(TimeZone(p)).LocalTime?
  {
    if !Visited(p) then Skipped
    else match env.localTime(TimeZone(p))
      case BadZone(msg) => Failed("User " + p.id + ": " + msg)
      case LocalTime(midnight, _, month) => Reset(ResetUser(p, midnight, env.calendarOf(p.lastReset).1, month))
  }

  /** The row as the job leaves it. */
  function After(p: Profile, env: Env): (q: Profile)
    ensures !Visited(p) ==> q == p
    ensures q.id == p.id && q.dailyLimit == p.dailyLimit
  {
    match Effect(p, env)
    case Reset(o) => o.profile
    case _ => p
  }

  /** The counters the job reports. */
  datatype Tally = Tally(usersReset: nat, monthlyResets: nat, errors: seq<string>)

  function Record(t: Tally, e: RowEffect): Tally {
    match e
    case Skipped => t
    case Failed(msg) => t.(errors := t.errors + [msg])
    case Reset(o) =>
      t.(usersReset := t.usersReset + (if o.daily then 1 else 0),
         monthlyResets := t.monthlyResets + (if o.monthly then 1 else 0))
  }

  /**
   * The table and the counters after the rows have been handled in order.
   * Each row ends up as the per-user transition makes it, whatever the other
   * rows hold. Every visited user is either reset (possibly both daily and
   * monthly) or produces one error message, so the counters never exceed the
   * visited rows.
   */
  function Run(rows: seq<Profile>, env: Env): (r: (seq<Profile>, Tally))
    ensures |r.0| == |rows|
    ensures forall i :: 0 <= i < |rows| ==> r.0[i] == After(rows[i], env)
    ensures r.1.usersReset + |r.1.errors| <= VisitedCount(rows)
    ensures r.1.monthlyResets + |r.1.errors| <= VisitedCount(rows)
  {
    if rows == [] then ([], Tally(0, 0, []))
    else
      var p := rows[|rows| - 1];
      var (done, t) := Run(rows[..|rows| - 1], env);
      assert forall i :: 0 <= i < |rows| - 1 ==> rows[..|rows| - 1][i] == rows[i];
      (done + [After(p, env)], Record(t, Effect(p, env)))
  }

  function VisitedCount(rows: seq<Profile>): nat {
    if rows == [] then 0 else VisitedCount(rows[..|rows| - 1]) + (if Visited(rows[|rows| - 1]) then 1 else 0)
  }

  /** The answer the endpoint gives. */
  datatype Response = Unauthorized | NoActiveUsers | Completed(tally: Tally)

  /**
   * The `GET` handler over an in-memory `profiles` table. Each visited row is
   * updated in place; a failure for one user is recorded and the loop goes on.
   */
  method ResetSimulations(header: Option<string>, secret: Option<string>, rows: seq<Profile>, env: Env)
    returns (response: Response, table: seq<Profile>)
    ensures !CronAuth.Authorized(header, secret) ==> response == Unauthorized && table == rows
    ensures CronAuth.Authorized(header, secret) && VisitedCount(rows) == 0 ==>
              response == NoActiveUsers && table == rows
    ensures CronAuth.Authorized(header, secret) && VisitedCount(rows) > 0 ==>
              response == Completed(Run(rows, env).1) && table == Run(rows, env).0
  {
    if !CronAuth.Authorized(header, secret) {
      return Unauthorized, rows;
    }
    var anyVisited := exists i :: 0 <= i < |rows| && Visited(rows[i]);
    if !anyVisited {
      NoVisitedCount(rows);
      return NoActiveUsers, rows;
    }
    table := rows;
    var tally := Tally(0, 0, []);
    var i := 0;
    while i < |rows|
      invariant 0 <= i <= |rows| && |table| == |rows|
      invariant table[..i] == Run(rows[..i], env).0 && tally == Run(rows[..i], env).1
      invariant table[i..] == rows[i..]
    {
      var p := rows[i];
      assert rows[..i + 1][..i] == rows[..i];
      var e := Effect(p, env);
      tally := Record(tally, e);
      table := table[i := After(p, env)];
      i := i + 1;
    }
    assert rows[..i] == rows;
    assert table[..i] == table;
    VisitedCountPositive(rows);
    response := Completed(tally);
  }

  lemma {:induction false} NoVisitedCount(rows: seq<Profile>)
    requires forall i :: 0 <= i < |rows| ==> !Visited(rows[i])
    ensures VisitedCount(rows) == 0
  {
    if rows != [] {
      NoVisitedCount(rows[..|rows| - 1]);
    }
  }

  lemma {:induction false} VisitedCountPositive(rows: seq<Profile>)
    requires exists i :: 0 <= i < |rows| && Visited(rows[i])
    ensures VisitedCount(rows) > 0
  {
    var i :| 0 <= i < |rows| && Visited(rows[i]);
    if i < |rows| - 1 {
      assert rows[..|rows| - 1][i] == rows[i];
      VisitedCountPositive(rows[..|rows| - 1]);
    }
  }

  /** Every error is the failure of one of the rows, in order: a user whose time zone could not be read. */
  lemma {:induction false} ErrorsAreFailures(rows: seq<Profile>, env: Env)
    ensures forall k :: 0 <= k < |Run(rows, env).1.errors| ==>
              exists i :: 0 <= i < |rows| && Effect(rows[i], env) == Failed(Run(rows, env).1.errors[k])
  {
    if rows != [] {
      var init := rows[..|rows| - 1];
      var last := |rows| - 1;
      ErrorsAreFailures(init, env);
      var errs := Run(init, env).1.errors;
      var all := Run(rows, env).1.errors;
      var e := Effect(rows[last], env);
      assert all == if e.Failed? then errs + [e.message] else errs;
      forall k | 0 <= k < |all|
        ensures exists i :: 0 <= i < |rows| && Effect(rows[i], env) == Failed(all[k])
      {
        if k < |errs| {
          var i :| 0 <= i < |init| && Effect(init[i], env) == Failed(errs[k]);
          assert init[i] == rows[i];
          assert all[k] == errs[k];
        } else {
          assert Effect(rows[last], env) == Failed(all[k]);
        }
      }
      assert forall k :: 0 <= k < |all| ==> exists i :: 0 <= i < |rows| && Effect(rows[i], env) == Failed(all[k]);
    } else {
      assert Run(rows, env).1.errors == [];
    }
  }

  /** After a daily reset without a monthly one, the pool holds at most three days' allowance. */
  lemma DailyResetCapsRollover(p: Profile, midnight: int, lastResetMonth: int, currentMonth: int)
    requires p.lastReset < midnight && lastResetMonth == currentMonth
    ensures ResetUser(p, midnight, lastResetMonth, currentMonth).profile.rollover <= 3 * p.dailyLimit
  {
  }

  /** The job's rollover agrees with the library's `calculateRollover` as long as the count is within the limit. */
  lemma {:induction false} DailyRolloverMatchesLibrary(p: Profile)
    requires p.dailyCount <= p.dailyLimit
    ensures DailyRollover(p) == Quota.CalculateRollover(p.dailyLimit, p.dailyCount, p.rollover)
  {
    assert Quota.UnusedToday(p.dailyLimit, p.dailyCount) == p.dailyLimit - p.dailyCount;
  }

  /**
   * Over the limit the two disagree: limit 3, count 5 and an empty pool leave
   * the job with a pool of -2 where the library keeps 0.
   */
  lemma OverLimitShrinksPool()
    ensures var p := Profile("u", "active", None, 3, 5, 0, 0, 0);
            DailyRollover(p) == -2 && Quota.CalculateRollover(3, 5, 0) == 0
  {
  }

  /** The monthly check compares month numbers only: the same month a year later resets nothing. */
  lemma {:induction false} SameMonthNextYear(p: Profile, env: Env, midnight: int, year: int, month: int)
    requires Visited(p) && p.lastReset >= midnight
    requires env.localTime(TimeZone(p)) == LocalTime(midnight, year + 1, month)
    requires env.calendarOf(p.lastReset) == (year, month)
    ensures Effect(p, env) == Reset(Outcome(p, false, false))
  {
    var o := ResetUser(p, midnight, month, month);
    assert o.profile == p;
  }

  /** A monthly reset overrides the pool the daily reset has just written. */
  lemma MonthlyOverridesDaily(p: Profile, midnight: int, lastResetMonth: int, currentMonth: int)
    requires lastResetMonth != currentMonth
    ensures ResetUser(p, midnight, lastResetMonth, currentMonth).profile.rollover == 0
  {
  }
}
