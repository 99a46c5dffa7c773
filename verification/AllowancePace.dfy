/**
Pacing a subscription's usage window: a line that rises a fixed share a day, capped below the reserve, and the hold
while usage is on or over it. Instants are real numbers of milliseconds and arithmetic is exact.
*/
module AllowancePace {
  import opened Prelude

  const RESERVE_PERCENT := 5.0
  const MIN_PACED_WINDOW_MINUTES := 1440.0
  const DAY_MS := 86_400_000.0
  const MINUTE_MS := 60_000.0

  datatype Allowance = Allowance(usedPercent: real, windowMinutes: real, resetsAt: real)

  datatype Pace = Pace(usedPercent: real, limitPercent: real, dailySharePercent: real, resetsAt: real,
                       holdUntil: Option<real>)

  function MinR(a: real, b: real): real { if a <= b then a else b }

  function MaxR(a: real, b: real): real { if a <= b then b else a }

  function EvenDailySharePercent(windowMinutes: real): real
    requires windowMinutes > 0.0
  {
    100.0 * DAY_MS / (windowMinutes * MINUTE_MS)
  }

  function Share(a: Allowance, daily: Option<real>): real
    requires a.windowMinutes > 0.0
  {
    if daily.Some? then daily.value else EvenDailySharePercent(a.windowMinutes)
  }

  function StartOf(a: Allowance): real { a.resetsAt - a.windowMinutes * MINUTE_MS }

  const CAP := 100.0 - RESERVE_PERCENT

  function ElapsedDays(a: Allowance, now: real): real { MaxR(0.0, (now - StartOf(a)) / DAY_MS) }

  function Line(share: real, days: real): real { share * (days + 1.0) }

  function Limit(a: Allowance, share: real, now: real): real { MinR(CAP, Line(share, ElapsedDays(a, now))) }

  /** `allowancePace`. The share a caller passes is positive, as the setting is validated to be. */
  function PaceOf(allowance: Option<Allowance>, daily: Option<real>, now: real): Option<Pace>
    requires daily.Some? ==> daily.value > 0.0
  {
    if allowance == None then None else
      var a := allowance.value;
      if a.windowMinutes < MIN_PACED_WINDOW_MINUTES || now >= a.resetsAt then None else
        var share := Share(a, daily);
        var limit := Limit(a, share, now);
        var holdUntil :=
          if a.usedPercent >= CAP then Some(a.resetsAt)
          else if a.usedPercent >= limit then
            SharePositive(a, daily);
            var reach := StartOf(a) + (a.usedPercent / share - 1.0) * DAY_MS;
            Some(MinR(a.resetsAt, MaxR(now, reach)))
          else None;
        Some(Pace(a.usedPercent, limit, share, a.resetsAt, holdUntil))
  }

  lemma SharePositive(a: Allowance, daily: Option<real>)
    requires a.windowMinutes >= MIN_PACED_WINDOW_MINUTES && (daily.Some? ==> daily.value > 0.0)
    ensures Share(a, daily) > 0.0
  {
    if daily == None {
      var d := a.windowMinutes * MINUTE_MS;
      assert d > 0.0;
      assert 100.0 * DAY_MS / d > 0.0;
    }
  }

  // ------------------------------------------------------------- the promises

  /**
  What is reported: nothing without an allowance, for a window under a day or past the reset; otherwise the usage and
  reset as they are, the share the admin set, or where none is set the one that makes a hundred over the window's days,
  and the line: a day's share from the first minute, another each day, capped at 95.
  */
  lemma PaceReported(allowance: Option<Allowance>, daily: Option<real>, now: real)
    requires daily.Some? ==> daily.value > 0.0
    ensures PaceOf(allowance, daily, now) == None <==>
      allowance == None || allowance.value.windowMinutes < 1440.0 || now >= allowance.value.resetsAt
    ensures PaceOf(allowance, daily, now).Some? ==>
      var (a, pace) := (allowance.value, PaceOf(allowance, daily, now).value);
      var share, start := pace.dailySharePercent, a.resetsAt - a.windowMinutes * 60_000.0;
      && pace.usedPercent == a.usedPercent && pace.resetsAt == a.resetsAt
      && (daily.Some? ==> share == daily.value) && (daily == None ==> share * (a.windowMinutes / 1440.0) == 100.0)
      && (now <= start ==> pace.limitPercent == MinR(95.0, share))
      && (now >= start ==> pace.limitPercent == MinR(95.0, share * ((now - start) / 86_400_000.0 + 1.0)))
  {
    if PaceOf(allowance, daily, now).Some? && daily == None { EvenShare(allowance.value.windowMinutes); }
  }

  lemma EvenShare(minutes: real)
    requires minutes > 0.0
    ensures EvenDailySharePercent(minutes) * (minutes / 1440.0) == 100.0
  {
    var d, share := minutes * MINUTE_MS, EvenDailySharePercent(minutes);
    assert share * d == 100.0 * DAY_MS;
    assert minutes / 1440.0 == d / DAY_MS;
    assert share * (d / DAY_MS) == share * d / DAY_MS;
  }

  predicate Paced(a: Allowance, now: real) { a.windowMinutes >= MIN_PACED_WINDOW_MINUTES && now < a.resetsAt }

  lemma ElapsedRises(a: Allowance, t: real, u: real)
    requires t <= u
    ensures ElapsedDays(a, t) <= ElapsedDays(a, u)
  {}

  lemma LineRises(share: real, d: real, e: real)
    requires share > 0.0 && d <= e
    ensures Line(share, d) <= Line(share, e)
  {
    assert Line(share, e) - Line(share, d) == share * (e - d);
  }

  /** The line never falls with time and never passes the reserve. */
  lemma LimitRises(a: Allowance, share: real, t: real, u: real)
    requires share > 0.0 && t <= u
    ensures Limit(a, share, t) <= Limit(a, share, u) <= 95.0
  {
    hide Line, ElapsedDays;
    ElapsedRises(a, t, u);
    LineRises(share, ElapsedDays(a, t), ElapsedDays(a, u));
  }

  /** Where the line reaches a usage below the cap. */
  function Reach(a: Allowance, share: real): real
    requires share > 0.0
  {
    StartOf(a) + (a.usedPercent / share - 1.0) * DAY_MS
  }

  /** Usage below the cap is on or over the line exactly up to the instant the line reaches it. */
  lemma OverUntilReach(a: Allowance, share: real, t: real)
    requires share > 0.0 && a.usedPercent < CAP
    ensures a.usedPercent >= Limit(a, share, t) <==> t <= Reach(a, share) && a.usedPercent >= share
  {
    var days := (t - StartOf(a)) / DAY_MS;
    var q := a.usedPercent / share;
    LineSign(a.usedPercent, share, MaxR(0.0, days), q);
    LineSign(a.usedPercent, share, 0.0, q);
    assert days * DAY_MS == t - StartOf(a);
    assert Reach(a, share) - t == (q - 1.0 - days) * DAY_MS;
  }

  lemma LineSign(used: real, share: real, days: real, q: real)
    requires share > 0.0 && q == used / share
    ensures used >= Line(share, days) <==> q >= days + 1.0
    ensures Line(share, 0.0) == share
  {
    assert q * share == used;
    assert used - Line(share, days) == share * (q - (days + 1.0));
    Sign(share, q - (days + 1.0));
  }

  lemma Sign(k: real, x: real)
    requires k > 0.0
    ensures k * x >= 0.0 <==> x >= 0.0
  {}

  /** A hold ends between now and the reset. */
  lemma HoldInWindow(a: Allowance, daily: Option<real>, now: real)
    requires (daily.Some? ==> daily.value > 0.0) && Paced(a, now)
    ensures PaceOf(Some(a), daily, now).Some?
    ensures var hold := PaceOf(Some(a), daily, now).value.holdUntil;
      hold.Some? ==> now <= hold.value <= a.resetsAt
  {}

  /** What the hold is, without the two clamps that never bite from below. */
  lemma HoldIs(a: Allowance, daily: Option<real>, t: real)
    requires (daily.Some? ==> daily.value > 0.0) && Paced(a, t)
    ensures Share(a, daily) > 0.0
    ensures var hold := PaceOf(Some(a), daily, t).value.holdUntil;
      hold == if a.usedPercent >= CAP then Some(a.resetsAt)
              else if t <= Reach(a, Share(a, daily)) && a.usedPercent >= Share(a, daily)
                then Some(MinR(a.resetsAt, Reach(a, Share(a, daily))))
              else None
  {
    SharePositive(a, daily);
    if a.usedPercent < CAP { OverUntilReach(a, Share(a, daily), t); }
  }

  /**
  With usage unchanged: every instant from a held one up to its `holdUntil`, and before the reset, is held until that
  same instant, and every later instant before the reset is not held.
  */
  lemma HoldIsSteady(a: Allowance, daily: Option<real>, now: real, t: real)
    requires (daily.Some? ==> daily.value > 0.0) && Paced(a, now) && Paced(a, t) && now <= t
    requires PaceOf(Some(a), daily, now).value.holdUntil.Some?
    ensures var held := PaceOf(Some(a), daily, now).value.holdUntil;
      var later := PaceOf(Some(a), daily, t).value.holdUntil;
      later == if t <= held.value then held else None
  {
    hide PaceOf, Reach, Share;
    HoldIs(a, daily, now);
    HoldIs(a, daily, t);
  }

  /** Nothing is held while usage is under the line, and being under it lasts until the reset. */
  lemma UnderStaysUnder(a: Allowance, daily: Option<real>, now: real, t: real)
    requires (daily.Some? ==> daily.value > 0.0) && Paced(a, now) && Paced(a, t) && now <= t
    requires PaceOf(Some(a), daily, now).value.holdUntil == None
    ensures PaceOf(Some(a), daily, t).value.holdUntil == None
    ensures a.usedPercent < PaceOf(Some(a), daily, t).value.limitPercent
  {
    SharePositive(a, daily);
    LimitRises(a, Share(a, daily), now, t);
  }

  lemma Regroup(x: real, y: real, z: real)
    ensures x * (y * z) == x * y * z
  {}

  /** At the even default the whole of the window up to the reserve is usable by its end. */
  lemma EvenShareReachesCap(a: Allowance)
    requires a.windowMinutes >= MIN_PACED_WINDOW_MINUTES
    ensures Limit(a, Share(a, None), a.resetsAt) == CAP
  {
    var d := a.windowMinutes * MINUTE_MS;
    var share, days := 100.0 * DAY_MS / d, d / DAY_MS;
    assert d > 0.0 && days > 0.0 && days * DAY_MS == d && share * d == 100.0 * DAY_MS;
    assert share * days == 100.0 by { Regroup(share, days, DAY_MS); }
    SharePositive(a, None);
    assert share * (days + 1.0) == 100.0 + share;
  }
}
