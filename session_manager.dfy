/**
 * Scheduling rules of the session manager: the activity multiplier of the
 * configured peak windows, the active-hours window, the working-day and
 * weekend rules, the randomised pause between sessions and the number of
 * hours to wait until the active window opens again.
 * The current hour, the weekday name and the `Math.random()` draw are
 * parameters; the sleeping loops that consume these numbers are not modelled.
 */
module SessionManager {
  import opened Common

  /** A peak window `[start, end)` with the multiplier applied inside it. */
  datatype Peak = Peak(start: int, end: int, activityMultiplier: real)

  /** `safety.activeHours`: optional bounds of the active window and peak windows. */
  datatype ActiveHours = ActiveHours(start: Option<int>, end: Option<int>, peakHours: Option<seq<Peak>>)

  /** `safety.intervalMinutes`: absent, one number, or a `{min, max}` object. */
  datatype IntervalMinutes = Unset | Minutes(n: real) | MinMax(min: real, max: real)

  /** `safety.workingDays`. */
  datatype WorkingDays = WorkingDays(enabled: bool, days: seq<string>, weekendReduction: Option<real>)

  /** The `safety` section of the scraper configuration. */
  datatype Safety = Safety(
    intervalMinutes: IntervalMinutes,
    activeHours: Option<ActiveHours>,
    activeHoursStart: Option<int>,
    workingDays: Option<WorkingDays>)

  /** `hour` lies in the peak window: the start hour is in it, the end hour is
      not, and a window that contains an hour is non-empty. */
  predicate InPeak(p: Peak, hour: int)
    ensures InPeak(p, hour) ==> p.start < p.end
    ensures hour == p.start && p.start < p.end ==> InPeak(p, hour)
    ensures hour == p.end ==> !InPeak(p, hour)
  {
    p.start <= hour < p.end
  }

  /** The configured peak windows, if any. */
  function PeakWindows(safety: Safety): Option<seq<Peak>>
  {
    if safety.activeHours.Some? then safety.activeHours.value.peakHours else None
  }

  /** `getActivityMultiplier()` at `hour`: the first peak window containing the
      hour gives its multiplier, otherwise 1.0. */
  method GetActivityMultiplier(safety: Safety, hour: int) returns (m: real)
    ensures PeakWindows(safety).None? ==> m == 1.0
    ensures PeakWindows(safety).Some? ==>
      var peaks := PeakWindows(safety).value;
      ((forall i :: 0 <= i < |peaks| ==> !InPeak(peaks[i], hour)) ==> m == 1.0) &&
      ((exists i :: 0 <= i < |peaks| && InPeak(peaks[i], hour)) ==>
         exists i :: 0 <= i < |peaks| && InPeak(peaks[i], hour) && m == peaks[i].activityMultiplier &&
           forall j :: 0 <= j < i ==> !InPeak(peaks[j], hour))
  {
    if PeakWindows(safety).None? {
      return 1.0;
    }
    var peaks := PeakWindows(safety).value;
    for i := 0 to |peaks|
      invariant forall j :: 0 <= j < i ==> !InPeak(peaks[j], hour)
    {
      if hour >= peaks[i].start && hour < peaks[i].end {
        return peaks[i].activityMultiplier;
      }
    }
    return 1.0;
  }

  /** `activeHours.start`, if configured. */
  function ConfiguredStart(safety: Safety): Option<int>
  {
    if safety.activeHours.Some? then safety.activeHours.value.start else None
  }

  /** `activeHours.end`, if configured. */
  function ConfiguredEnd(safety: Safety): Option<int>
  {
    if safety.activeHours.Some? then safety.activeHours.value.end else None
  }

  /** `activeHours.start || 8`: a missing or zero start falls back to 8. */
  function ActiveStart(safety: Safety): (h: int)
    ensures ConfiguredStart(safety).Some? && ConfiguredStart(safety).value != 0 ==> h == ConfiguredStart(safety).value
    ensures ConfiguredStart(safety).None? || ConfiguredStart(safety).value == 0 ==> h == 8
  {
    match ConfiguredStart(safety)
    case Some(v) => if v != 0 then v else 8
    case None => 8
  }

  /** `activeHours.end || 22`. */
  function ActiveEnd(safety: Safety): (h: int)
    ensures ConfiguredEnd(safety).Some? && ConfiguredEnd(safety).value != 0 ==> h == ConfiguredEnd(safety).value
    ensures ConfiguredEnd(safety).None? || ConfiguredEnd(safety).value == 0 ==> h == 22
  {
    match ConfiguredEnd(safety)
    case Some(v) => if v != 0 then v else 22
    case None => 22
  }

  /** `isActiveHours()` at `hour`: inside the window, both ends included. */
  predicate IsActiveHours(safety: Safety, hour: int)
    ensures IsActiveHours(safety, hour) ==> ActiveStart(safety) <= ActiveEnd(safety)
    ensures ActiveStart(safety) <= ActiveEnd(safety) && (hour == ActiveStart(safety) || hour == ActiveEnd(safety)) ==>
      IsActiveHours(safety, hour)
  {
    ActiveStart(safety) <= hour <= ActiveEnd(safety)
  }

  /** With no active-hours configuration the bot works from 8:00 through 22:59. */
  lemma DefaultActiveWindow(safety: Safety, hour: int)
    requires safety.activeHours.None?
    ensures IsActiveHours(safety, hour) <==> 8 <= hour <= 22
  {
  }

  /** `isWorkingDay()` given the weekday name: any day counts when the rule is off. */
  predicate IsWorkingDay(safety: Safety, dayName: string)
    ensures safety.workingDays.None? || !safety.workingDays.value.enabled ==> IsWorkingDay(safety, dayName)
    ensures safety.workingDays.Some? && safety.workingDays.value.enabled ==>
      (IsWorkingDay(safety, dayName) <==> dayName in safety.workingDays.value.days)
  {
    safety.workingDays.None? || !safety.workingDays.value.enabled || dayName in safety.workingDays.value.days
  }

  /** `shouldWork()`: a working day and inside the active window. */
  predicate ShouldWork(safety: Safety, dayName: string, hour: int)
    ensures ShouldWork(safety, dayName, hour) ==> ActiveStart(safety) <= hour <= ActiveEnd(safety)
    ensures safety.activeHours.None? && safety.workingDays.None? ==> (ShouldWork(safety, dayName, hour) <==> 8 <= hour <= 22)
  {
    IsWorkingDay(safety, dayName) && IsActiveHours(safety, hour)
  }

  /** `getWeekendMultiplier()`: the configured reduction (0.7 when missing or zero)
      on a non-working day, otherwise 1.0. */
  function WeekendMultiplier(safety: Safety, dayName: string): (m: real)
    ensures IsWorkingDay(safety, dayName) ==> m == 1.0
    ensures !IsWorkingDay(safety, dayName) ==>
      var wr := safety.workingDays.value.weekendReduction;
      m == if wr.Some? && wr.value != 0.0 then wr.value else 0.7
  {
    if !IsWorkingDay(safety, dayName) && safety.workingDays.Some? then
      var wr := safety.workingDays.value.weekendReduction;
      if wr.Some? && wr.value != 0.0 then wr.value else 0.7
    else 1.0
  }

  /** The base interval in minutes: `{min, max}` when both are set, otherwise the
      one number (15 when missing or zero) for both ends. */
  function BaseMinutes(c: IntervalMinutes): (b: (real, real))
    requires c.MinMax? ==> c.min != 0.0 && c.max != 0.0
    ensures c.MinMax? ==> b == (c.min, c.max)
    ensures !c.MinMax? ==> b.0 == b.1
    ensures c.Unset? || (c.Minutes? && c.n == 0.0) ==> b == (15.0, 15.0)
  {
    match c
    case MinMax(lo, hi) => (lo, hi)
    case Minutes(n) => if n != 0.0 then (n, n) else (15.0, 15.0)
    case Unset => (15.0, 15.0)
  }

  /** The bounds in milliseconds: each base bound divided by the activity
      multiplier, rounded down to whole minutes. */
  function IntervalBounds(c: IntervalMinutes, multiplier: real): (r: (int, int))
    requires c.MinMax? ==> c.min != 0.0 && c.max != 0.0
    requires multiplier > 0.0
    ensures r.0 == (BaseMinutes(c).0 / multiplier).Floor * 60000
    ensures r.1 == (BaseMinutes(c).1 / multiplier).Floor * 60000
    ensures !c.MinMax? ==> r.0 == r.1
  {
    var b := BaseMinutes(c);
    ((b.0 / multiplier).Floor * 60 * 1000, (b.1 / multiplier).Floor * 60 * 1000)
  }

  /** `getRandomInterval()` with the multiplier of the current hour and the draw
      `r`: a whole number of milliseconds between the two bounds, both included. */
  function RandomInterval(c: IntervalMinutes, multiplier: real, r: real): (ms: int)
    requires c.MinMax? ==> c.min != 0.0 && c.max != 0.0
    requires multiplier > 0.0
    requires 0.0 <= r < 1.0
    ensures var (lo, hi) := IntervalBounds(c, multiplier); lo <= hi ==> lo <= ms <= hi
  {
    var (minMs, maxMs) := IntervalBounds(c, multiplier);
    var width := (maxMs - minMs + 1) as real;
    assert minMs <= maxMs ==> 0 <= (r * width).Floor < maxMs - minMs + 1 by {
      if minMs <= maxMs {
        MulNonNegative(r, width);
        MulMonotone(r, 1.0, width);
        assert r * width < width by {
          assert (1.0 - r) * width > 0.0;
        }
      }
    }
    (r * width).Floor + minMs
  }

  /** With no interval configured and no peak window, the pause is exactly 15 minutes. */
  lemma DefaultIntervalIsFifteenMinutes(r: real)
    requires 0.0 <= r < 1.0
    ensures RandomInterval(Unset, 1.0, r) == 900000
  {
  }

  /** The hours from `hour` until `start`, wrapping past midnight when the start
      hour has already gone by today. */
  function HoursUntil(hour: int, start: int): int
  {
    if hour > start then (24 - hour) + start else start - hour
  }

  lemma HoursUntilArrives(hour: int, start: int)
    requires 0 <= hour < 24 && 0 <= start < 24
    ensures 0 <= HoursUntil(hour, start) < 24
    ensures (hour + HoursUntil(hour, start)) % 24 == start
  {
  }

  /** The start hour `waitForActiveHours` aims for as written: the separate
      setting `activeHoursStart || 8`, not the window's own `activeHours.start`. */
  function WaitTargetAsWritten(safety: Safety): (h: int)
    ensures safety.activeHoursStart.None? || safety.activeHoursStart.value == 0 ==> h == 8
  {
    if safety.activeHoursStart.Some? && safety.activeHoursStart.value != 0 then safety.activeHoursStart.value else 8
  }

  /** `waitForActiveHours()` as written: the number of hours it sleeps. */
  function HoursToWaitAsWritten(safety: Safety, hour: int): (w: int)
    ensures IsActiveHours(safety, hour) ==> w == 0
    ensures !IsActiveHours(safety, hour) ==> w == HoursUntil(hour, WaitTargetAsWritten(safety))
  {
    if IsActiveHours(safety, hour) then 0 else HoursUntil(hour, WaitTargetAsWritten(safety))
  }

  /** With the window configured to open at 10:00 and no separate start setting,
      a wait begun at 23:00 ends at 8:00, which is still outside the window. */
  lemma WaitAsWrittenWakesOutsideWindow()
    ensures var safety := Safety(Unset, Some(ActiveHours(Some(10), Some(22), None)), None, None);
            var w := HoursToWaitAsWritten(safety, 23);
            w == 9 && (23 + w) % 24 == 8 && !IsActiveHours(safety, (23 + w) % 24)
  {
  }

  /** The wait as evidently intended: until the window's own start hour. */
  function HoursToWait(safety: Safety, hour: int): (w: int)
    requires 0 <= hour < 24 && 0 <= ActiveStart(safety) < 24
    ensures 0 <= w < 24
    ensures IsActiveHours(safety, hour) ==> w == 0
    ensures !IsActiveHours(safety, hour) ==> (hour + w) % 24 == ActiveStart(safety)
  {
    if IsActiveHours(safety, hour) then 0
    else
      HoursUntilArrives(hour, ActiveStart(safety));
      HoursUntil(hour, ActiveStart(safety))
  }

  /** After the corrected wait the bot is inside a non-empty active window. */
  lemma HoursToWaitReachesWindow(safety: Safety, hour: int)
    requires 0 <= hour < 24 && 0 <= ActiveStart(safety) < 24
    requires ActiveStart(safety) <= ActiveEnd(safety)
    ensures IsActiveHours(safety, (hour + HoursToWait(safety, hour)) % 24)
  {
  }
}
