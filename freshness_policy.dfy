/**
 * How late an asset's upstream data is, under the two freshness policies.
 *
 * Times and durations are whole minutes. The minimum policy measures each upstream time
 * against `evaluation - window`; the cron policy first walks back through the schedule's
 * prior ticks to the newest tick that is at least `window` old, then charges every upstream
 * time older than that tick with the delay since the tick's deadline. A missing upstream
 * time makes the lateness unknown. The loops visit the upstream map in any order; the
 * contracts tie their results to the set of values only.
 */
module FreshnessPolicies {
  import opened Wrappers
  import opened IntSets
  import opened AssetKeys

  datatype FreshnessPolicy =
    | MinimumFreshnessPolicy(minimumFreshnessMinutes: int)
    | CronMinimumFreshnessPolicy(minimumFreshnessMinutes: int, cronSchedule: string)

  /** The values of `m` at the keys in `done`. */
  ghost function ValuesAt(m: map<AssetKey, Option<int>>, done: set<AssetKey>): set<Option<int>>
    requires done <= m.Keys
  {
    set k | k in done :: m[k]
  }

  lemma ValuesAtInsert(m: map<AssetKey, Option<int>>, done: set<AssetKey>, k: AssetKey)
    requires done <= m.Keys && k in m
    ensures ValuesAt(m, done + {k}) == ValuesAt(m, done) + {m[k]}
  {
  }

  lemma ValuesAtAllKeys(m: map<AssetKey, Option<int>>)
    ensures ValuesAt(m, m.Keys) == m.Values
  {
    forall v | v in m.Values ensures v in ValuesAt(m, m.Keys) {
      var k :| k in m && m[k] == v;
    }
  }

  // ---------------------------------------------------------------------------
  // Minimum freshness: lateness relative to the evaluation time
  // ---------------------------------------------------------------------------

  /** The lateness of each known upstream time older than `minimumTime`. */
  function StaleGaps(times: set<Option<int>>, minimumTime: int): set<int> {
    set o | o in times && o.Some? && o.value < minimumTime :: minimumTime - o.value
  }

  /**
   * The lateness under the minimum policy: unknown when some upstream time is missing,
   * else the largest gap of an upstream time below `evaluation - window`, or 0.
   */
  function MinimumLateness(evaluation: int, window: int, times: set<Option<int>>): (r: Option<int>)
    ensures r.None? <==> None in times
    ensures r.Some? ==> r.value >= 0
    ensures r.Some? ==> forall t :: Some(t) in times && t < evaluation - window ==> r.value >= evaluation - window - t
    ensures r.Some? && r.value != 0 ==>
      exists t :: Some(t) in times && t < evaluation - window && r.value == evaluation - window - t
  {
    if None in times then None
    else
      var gaps := {0} + StaleGaps(times, evaluation - window);
      assert forall t :: Some(t) in times && t < evaluation - window ==> evaluation - window - t in gaps;
      Some(MaxOf(gaps))
  }

  /** Every gap is positive, and every known time older than `minimumTime` contributes its own gap. */
  lemma StaleGapsShape(times: set<Option<int>>, minimumTime: int)
    ensures forall g :: g in StaleGaps(times, minimumTime) ==> g > 0
    ensures forall t :: Some(t) in times && t < minimumTime ==> minimumTime - t in StaleGaps(times, minimumTime)
  {
  }

  lemma StaleGapsInsert(times: set<Option<int>>, minimumTime: int, t: int)
    ensures StaleGaps(times + {Some(t)}, minimumTime)
         == StaleGaps(times, minimumTime) + (if t < minimumTime then {minimumTime - t} else {})
  {
  }

  /** One step of the minimum-policy fold: taking the larger of the running value and the new gap. */
  lemma GapFoldStep(seen: set<Option<int>>, minimumTime: int, t: int, acc: int)
    requires acc == MaxOf({0} + StaleGaps(seen, minimumTime))
    ensures MaxOf({0} + StaleGaps(seen + {Some(t)}, minimumTime))
         == if t < minimumTime && minimumTime - t > acc then minimumTime - t else acc
  {
    StaleGapsInsert(seen, minimumTime, t);
    if t < minimumTime {
      MaxOfInsert({0} + StaleGaps(seen, minimumTime), minimumTime - t);
      assert {0} + StaleGaps(seen + {Some(t)}, minimumTime)
          == ({0} + StaleGaps(seen, minimumTime)) + {minimumTime - t};
    }
  }

  /** Upstream times no older than `evaluation - window` contribute nothing: all fresh means on time. */
  lemma AllFreshMeansOnTime(evaluation: int, window: int, times: set<Option<int>>)
    requires None !in times
    requires forall o :: o in times ==> o.value >= evaluation - window
    ensures MinimumLateness(evaluation, window, times) == Some(0)
  {
    assert StaleGaps(times, evaluation - window) == {};
  }

  /** MinimumFreshnessPolicy.minutes_late over the upstream materialization times. */
  method MinimumMinutesLate(evaluation: int, window: int, upstreamTimes: map<AssetKey, Option<int>>)
    returns (r: Option<int>)
    ensures r == MinimumLateness(evaluation, window, upstreamTimes.Values)
  {
    var minimumTime := evaluation - window;
    var minutesLate := 0;
    var remaining := upstreamTimes.Keys;
    ghost var seen: set<Option<int>> := {};
    while remaining != {}
      invariant remaining <= upstreamTimes.Keys
      invariant seen == ValuesAt(upstreamTimes, upstreamTimes.Keys - remaining)
      invariant None !in seen
      invariant minutesLate == MaxOf({0} + StaleGaps(seen, minimumTime))
      decreases remaining
    {
      var k :| k in remaining;
      ValuesAtInsert(upstreamTimes, upstreamTimes.Keys - remaining, k);
      assert upstreamTimes.Keys - (remaining - {k}) == (upstreamTimes.Keys - remaining) + {k};
      var upstreamTime := upstreamTimes[k];
      if upstreamTime.None? {
        assert upstreamTime in upstreamTimes.Values;
        return None;
      }
      GapFoldStep(seen, minimumTime, upstreamTime.value, minutesLate);
      if upstreamTime.value < minimumTime {
        minutesLate := if minimumTime - upstreamTime.value > minutesLate then minimumTime - upstreamTime.value
                       else minutesLate;
      }
      seen := seen + {upstreamTime};
      remaining := remaining - {k};
    }
    ValuesAtAllKeys(upstreamTimes);
    r := Some(minutesLate);
  }

  // ---------------------------------------------------------------------------
  // Cron minimum freshness: lateness relative to the newest tick that is due
  // ---------------------------------------------------------------------------

  /** Some prior tick lies at least `window` before the evaluation time. */
  predicate SomeTickDue(ticks: seq<int>, evaluation: int, window: int) {
    exists j :: 0 <= j < |ticks| && ticks[j] + window <= evaluation
  }

  /** The schedule's prior ticks, newest first, as a cron iterator walking backwards yields them. */
  predicate PriorTicks(ticks: seq<int>, evaluation: int) {
    && (|ticks| > 0 ==> ticks[0] <= evaluation)
    && (forall i, j :: 0 <= i < j < |ticks| ==> ticks[i] > ticks[j])
  }

  /** The index the backward walk stops at: the first tick whose deadline has passed. */
  function FirstDueIndex(ticks: seq<int>, evaluation: int, window: int): (i: nat)
    requires SomeTickDue(ticks, evaluation, window)
    ensures i < |ticks| && ticks[i] + window <= evaluation
    ensures forall j :: 0 <= j < i ==> ticks[j] + window > evaluation
    decreases |ticks|
  {
    if ticks[0] + window <= evaluation then 0
    else
      assert SomeTickDue(ticks[1..], evaluation, window) by {
        var j :| 0 <= j < |ticks| && ticks[j] + window <= evaluation;
        assert ticks[1..][j - 1] == ticks[j];
      }
      1 + FirstDueIndex(ticks[1..], evaluation, window)
  }

  /** On a schedule of prior ticks, the stopping tick is the newest tick whose deadline has passed. */
  lemma LatestRequiredTickIsNewestDue(ticks: seq<int>, evaluation: int, window: int)
    requires PriorTicks(ticks, evaluation) && SomeTickDue(ticks, evaluation, window)
    ensures var t := ticks[FirstDueIndex(ticks, evaluation, window)];
      && t <= evaluation
      && forall j :: 0 <= j < |ticks| && ticks[j] + window <= evaluation ==> ticks[j] <= t
  {
    var i := FirstDueIndex(ticks, evaluation, window);
    forall j | 0 <= j < |ticks| && ticks[j] + window <= evaluation ensures ticks[j] <= ticks[i] {
      assert !(j < i);
    }
    if i > 0 {
      assert ticks[0] > ticks[i];
    }
  }

  /** The delay charged to every upstream time older than `tick`: the time since the tick's deadline. */
  function StaleDelays(times: set<Option<int>>, evaluation: int, window: int, tick: int): set<int> {
    set o | o in times && o.Some? && o.value < tick :: evaluation - (tick + window)
  }

  /** The lateness under the cron policy for the stopping tick `tick`: the largest delay charged, or 0. */
  function CronLateness(evaluation: int, window: int, tick: int, times: set<Option<int>>): (r: Option<int>)
    ensures r.None? <==> None in times
    ensures r.Some? ==> r.value >= 0
  {
    if None in times then None else Some(MaxOf({0} + StaleDelays(times, evaluation, window, tick)))
  }

  /**
   * The closed form of the cron lateness once the tick is due: the delay since the tick's
   * deadline if some upstream time is older than the tick, and 0 otherwise.
   */
  lemma CronLatenessClosedForm(evaluation: int, window: int, tick: int, times: set<Option<int>>)
    requires tick + window <= evaluation
    requires None !in times
    ensures CronLateness(evaluation, window, tick, times)
         == Some(if exists t :: Some(t) in times && t < tick then evaluation - (tick + window) else 0)
  {
    var delays := StaleDelays(times, evaluation, window, tick);
    if exists t :: Some(t) in times && t < tick {
      var t :| Some(t) in times && t < tick;
      assert evaluation - (tick + window) in delays;
      assert delays == {evaluation - (tick + window)};
      assert {0} + delays == {0, evaluation - (tick + window)};
    } else {
      assert delays == {};
      assert {0} + delays == {0};
    }
  }

  /** All stale times are charged the same delay: the set is empty or that one delay, and empty just when no known time is older than the tick. */
  lemma StaleDelaysShape(times: set<Option<int>>, evaluation: int, window: int, tick: int)
    ensures StaleDelays(times, evaluation, window, tick) == {}
         || StaleDelays(times, evaluation, window, tick) == {evaluation - (tick + window)}
    ensures StaleDelays(times, evaluation, window, tick) != {} <==> exists t :: Some(t) in times && t < tick
  {
    if exists t :: Some(t) in times && t < tick {
      var t :| Some(t) in times && t < tick;
      assert evaluation - (tick + window) in StaleDelays(times, evaluation, window, tick);
    }
  }

  lemma StaleDelaysInsert(times: set<Option<int>>, evaluation: int, window: int, tick: int, t: int)
    ensures StaleDelays(times + {Some(t)}, evaluation, window, tick)
         == StaleDelays(times, evaluation, window, tick) + (if t < tick then {evaluation - (tick + window)} else {})
  {
  }

  /** One step of the cron-policy fold: taking the larger of the running value and the new delay. */
  lemma DelayFoldStep(seen: set<Option<int>>, evaluation: int, window: int, tick: int, t: int, acc: int)
    requires acc == MaxOf({0} + StaleDelays(seen, evaluation, window, tick))
    ensures MaxOf({0} + StaleDelays(seen + {Some(t)}, evaluation, window, tick))
         == if t < tick && evaluation - (tick + window) > acc then evaluation - (tick + window) else acc
  {
    StaleDelaysInsert(seen, evaluation, window, tick, t);
    if t < tick {
      MaxOfInsert({0} + StaleDelays(seen, evaluation, window, tick), evaluation - (tick + window));
      assert {0} + StaleDelays(seen + {Some(t)}, evaluation, window, tick)
          == ({0} + StaleDelays(seen, evaluation, window, tick)) + {evaluation - (tick + window)};
    }
  }

  /** CronMinimumFreshnessPolicy.minutes_late, with the cron schedule given as its prior ticks, newest first. */
  method CronMinutesLate(evaluation: int, window: int, ticks: seq<int>, upstreamTimes: map<AssetKey, Option<int>>)
    returns (r: Option<int>)
    requires SomeTickDue(ticks, evaluation, window)
    ensures r == CronLateness(evaluation, window, ticks[FirstDueIndex(ticks, evaluation, window)], upstreamTimes.Values)
  {
    var k := 0;
    var latestRequiredTick := ticks[0];
    while latestRequiredTick + window > evaluation
      invariant k <= FirstDueIndex(ticks, evaluation, window)
      invariant latestRequiredTick == ticks[k]
      decreases FirstDueIndex(ticks, evaluation, window) - k
    {
      k := k + 1;
      latestRequiredTick := ticks[k];
    }
    var minutesLate := 0;
    var remaining := upstreamTimes.Keys;
    ghost var seen: set<Option<int>> := {};
    while remaining != {}
      invariant remaining <= upstreamTimes.Keys
      invariant seen == ValuesAt(upstreamTimes, upstreamTimes.Keys - remaining)
      invariant None !in seen
      invariant minutesLate == MaxOf({0} + StaleDelays(seen, evaluation, window, latestRequiredTick))
      decreases remaining
    {
      var key :| key in remaining;
      ValuesAtInsert(upstreamTimes, upstreamTimes.Keys - remaining, key);
      assert upstreamTimes.Keys - (remaining - {key}) == (upstreamTimes.Keys - remaining) + {key};
      var upstreamTime := upstreamTimes[key];
      if upstreamTime.None? {
        assert upstreamTime in upstreamTimes.Values;
        return None;
      }
      DelayFoldStep(seen, evaluation, window, latestRequiredTick, upstreamTime.value, minutesLate);
      if upstreamTime.value < latestRequiredTick {
        var expectedByTime := latestRequiredTick + window;
        minutesLate := if evaluation - expectedByTime > minutesLate then evaluation - expectedByTime else minutesLate;
      }
      seen := seen + {upstreamTime};
      remaining := remaining - {key};
    }
    ValuesAtAllKeys(upstreamTimes);
    r := Some(minutesLate);
  }

  /** FreshnessPolicy.minutes_late, dispatched on the policy; `ticks` stands in for the cron schedule. */
  method MinutesLate(policy: FreshnessPolicy, evaluation: int, ticks: seq<int>,
                     upstreamTimes: map<AssetKey, Option<int>>)
    returns (r: Option<int>)
    requires policy.CronMinimumFreshnessPolicy? ==> SomeTickDue(ticks, evaluation, policy.minimumFreshnessMinutes)
    ensures r.None? <==> None in upstreamTimes.Values
    ensures r.Some? ==> r.value >= 0
    ensures policy.MinimumFreshnessPolicy? ==>
      r == MinimumLateness(evaluation, policy.minimumFreshnessMinutes, upstreamTimes.Values)
    ensures policy.CronMinimumFreshnessPolicy? ==>
      r == CronLateness(evaluation, policy.minimumFreshnessMinutes,
                        ticks[FirstDueIndex(ticks, evaluation, policy.minimumFreshnessMinutes)], upstreamTimes.Values)
  {
    match policy
    case MinimumFreshnessPolicy(window) =>
      r := MinimumMinutesLate(evaluation, window, upstreamTimes);
    case CronMinimumFreshnessPolicy(window, _) =>
      r := CronMinutesLate(evaluation, window, ticks, upstreamTimes);
  }
}
