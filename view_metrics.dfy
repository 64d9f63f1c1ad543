/** Site-wide counters (`viewRoutes.js`): the `global_metrics` table as a map
    from metric key to value, the two counting routes, and the analytics read
    that shows missing counters as zero and the session time in cumulative units. */
module ViewMetrics {
  import opened Base

  const HomepageKey: string := "homepage_views"
  const SessionKey: string := "total_session_time_seconds"
  const SecondsPerDay: int := 3600 * 24

  /** The object `formatTime` returns: every field counts the whole duration
      in its own unit, none is a remainder. */
  datatype TimeUnits = TimeUnits(seconds: real, minutes: int, hours: int, days: int)

  /** `formatTime`: `None` stands for `null` and `NaN`. */
  function FormatTime(totalSeconds: Option<real>): (u: TimeUnits)
    ensures totalSeconds.None? ==> u == TimeUnits(0.0, 0, 0, 0)
    ensures totalSeconds.Some? ==> u.seconds == totalSeconds.value
    ensures totalSeconds.Some? ==>
      u.minutes as real <= totalSeconds.value / 60.0 < u.minutes as real + 1.0
    ensures totalSeconds.Some? ==>
      u.hours as real <= totalSeconds.value / 3600.0 < u.hours as real + 1.0
    ensures totalSeconds.Some? ==>
      u.days as real <= totalSeconds.value / 86400.0 < u.days as real + 1.0
  {
    if totalSeconds.None? then TimeUnits(0.0, 0, 0, 0)
    else
      var s := totalSeconds.value;
      TimeUnits(s, (s / 60.0).Floor, (s / 3600.0).Floor, (s / (SecondsPerDay as real)).Floor)
  }

  /** For a non-negative duration the units are ordered: a day never counts
      more than its hours, an hour more than its minutes, a minute more than
      its seconds; and each coarser unit is the finer one divided down. */
  lemma {:induction false} UnitsOrdered(s: real)
    requires s >= 0.0
    ensures var u := FormatTime(Some(s));
      0 <= u.days <= u.hours <= u.minutes && u.minutes as real <= u.seconds
    ensures var u := FormatTime(Some(s));
      u.hours == u.minutes / 60 && u.days == u.hours / 24
  {
    var u := FormatTime(Some(s));
    assert s / 3600.0 == (s / 60.0) / 60.0;
    assert s / 86400.0 == (s / 3600.0) / 24.0;
    FloorOfQuotient(s / 60.0, 60, u.minutes, u.hours);
    FloorOfQuotient(s / 3600.0, 24, u.hours, u.days);
  }

  /** With `a = ⌊y⌋` and `b = ⌊y / k⌋`, `b` is `a` divided down by `k`
      (for the two ratios between neighbouring units). */
  lemma FloorOfQuotient(y: real, k: int, a: int, b: int)
    requires y >= 0.0 && (k == 60 || k == 24)
    requires a as real <= y < a as real + 1.0
    requires b as real <= y / k as real < b as real + 1.0
    ensures 0 <= b && b == a / k
  {
    if k == 60 {
      assert b * 60 <= a < (b + 1) * 60;
    } else {
      assert b * 24 <= a < (b + 1) * 24;
    }
  }

  /** `metrics.key || 0` on the table read back. */
  function Counter(metrics: map<string, int>, key: string): (v: int)
    ensures key in metrics ==> v == metrics[key]
    ensures key !in metrics ==> v == 0
  {
    if key in metrics then metrics[key] else 0
  }

  /** `INSERT ... ON DUPLICATE KEY UPDATE metric_value = metric_value + amount`:
      the row is created holding `amount`, or grows by it. */
  function Upsert(metrics: map<string, int>, key: string, amount: int): (m: map<string, int>)
    ensures m.Keys == metrics.Keys + {key}
    ensures Counter(m, key) == Counter(metrics, key) + amount
    ensures forall k :: k in metrics && k != key ==> m[k] == metrics[k]
  {
    metrics[key := Counter(metrics, key) + amount]
  }

  datatype Analytics = Analytics(homepageViews: int, totalSessionTime: TimeUnits)

  /** `GET /analytics`: a missing counter reads as zero. */
  function ReadAnalytics(metrics: map<string, int>): (a: Analytics)
    ensures HomepageKey !in metrics ==> a.homepageViews == 0
    ensures SessionKey !in metrics ==> a.totalSessionTime == TimeUnits(0.0, 0, 0, 0)
    ensures a.homepageViews == Counter(metrics, HomepageKey)
    ensures a.totalSessionTime.seconds == Counter(metrics, SessionKey) as real
  {
    Analytics(Counter(metrics, HomepageKey), FormatTime(Some(Counter(metrics, SessionKey) as real)))
  }

  /** `global_metrics`. */
  class GlobalMetrics {
    var metrics: map<string, int>

    constructor (metrics: map<string, int>)
      ensures this.metrics == metrics
    {
      this.metrics := metrics;
    }

    /** `GET /homepage`: one more view. */
    method HomepageView()
      modifies this
      ensures metrics == Upsert(old(metrics), HomepageKey, 1)
    {
      metrics := Upsert(metrics, HomepageKey, 1);
    }

    /** `POST /session-duration`: `duration` is the parsed body value, `None`
        for `NaN`; one that is not positive is refused and nothing changes. */
    method SessionDuration(duration: Option<int>) returns (success: bool)
      modifies this
      ensures success <==> duration.Some? && duration.value > 0
      ensures !success ==> metrics == old(metrics)
      ensures success ==> metrics == Upsert(old(metrics), SessionKey, duration.value)
    {
      if duration.None? || duration.value <= 0 {
        return false;
      }
      metrics := Upsert(metrics, SessionKey, duration.value);
      success := true;
    }
  }

  /** A homepage hit shows up as exactly one more view and leaves the session time alone. */
  lemma HomepageViewCounted(metrics: map<string, int>)
    ensures ReadAnalytics(Upsert(metrics, HomepageKey, 1)).homepageViews
            == ReadAnalytics(metrics).homepageViews + 1
    ensures ReadAnalytics(Upsert(metrics, HomepageKey, 1)).totalSessionTime
            == ReadAnalytics(metrics).totalSessionTime
  {
    assert Counter(Upsert(metrics, HomepageKey, 1), SessionKey) == Counter(metrics, SessionKey);
  }

  /** An accepted session adds its duration to the seconds shown and leaves the views alone. */
  lemma SessionCounted(metrics: map<string, int>, duration: int)
    ensures ReadAnalytics(Upsert(metrics, SessionKey, duration)).totalSessionTime.seconds
            == ReadAnalytics(metrics).totalSessionTime.seconds + duration as real
    ensures ReadAnalytics(Upsert(metrics, SessionKey, duration)).homepageViews
            == ReadAnalytics(metrics).homepageViews
  {
    assert Counter(Upsert(metrics, SessionKey, duration), HomepageKey) == Counter(metrics, HomepageKey);
  }
}
