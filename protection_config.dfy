/**
 * The per-domain activity summary of the protection page
 * (src/components/ProtectionConfig.tsx): how long ago a domain was last
 * active, how busy it was today and its hourly activity series.
 *
 * Timestamps are milliseconds since the epoch. The clock, the local-time
 * offset and the start of the local day are parameters; the log fetch is a
 * function that returns `None` when it throws.
 */
module ProtectionConfig {

  import opened Base
  import opened Text

  const MsPerMinute := 60000
  const MsPerHour := 3600000
  const MsPerDay := 86400000

  // ---------------------------------------------------------------------
  // Time ago
  // ---------------------------------------------------------------------

  /** The band `getTimeAgo` settles on, with its whole count of units. */
  datatype Ago = NoActivity | JustNow | MinutesAgo(minutes: nat) | HoursAgo(hours: nat) | DaysAgo(days: nat)

  /**
   * The band for the last activity `date` (`None` for `null`) seen at
   * `nowMs`; the divisions floor, and a date in the future is "now".
   */
  function AgoOf(nowMs: int, date: Option<int>): (a: Ago)
    ensures date.None? <==> a == NoActivity
    ensures date.Some? ==> (a == JustNow <==> nowMs - date.value < MsPerMinute)
    ensures date.Some? ==> (a.MinutesAgo? <==> MsPerMinute <= nowMs - date.value < MsPerHour)
    ensures date.Some? ==> (a.HoursAgo? <==> MsPerHour <= nowMs - date.value < MsPerDay)
    ensures date.Some? ==> (a.DaysAgo? <==> MsPerDay <= nowMs - date.value)
    ensures a.MinutesAgo? ==> 1 <= a.minutes < 60 && a.minutes * MsPerMinute <= nowMs - date.value < (a.minutes + 1) * MsPerMinute
    ensures a.HoursAgo? ==> 1 <= a.hours < 24 && a.hours * MsPerHour <= nowMs - date.value < (a.hours + 1) * MsPerHour
    ensures a.DaysAgo? ==> 1 <= a.days && a.days * MsPerDay <= nowMs - date.value < (a.days + 1) * MsPerDay
  {
    match date
    case None => NoActivity
    case Some(d) =>
      var diff := nowMs - d;
      var minutes := diff / MsPerMinute;
      var hours := diff / MsPerHour;
      var days := diff / MsPerDay;
      if minutes < 1 then JustNow
      else if minutes < 60 then MinutesAgo(minutes)
      else if hours < 24 then HoursAgo(hours)
      else DaysAgo(days)
  }

  /** `há ${n}<unit>` */
  function Counted(n: nat, suffix: string): (r: string)
    ensures |r| > 3 && r[0] == 'h'
  {
    "há " + NatToString(n) + suffix
  }

  /** `getTimeAgo` */
  function GetTimeAgo(nowMs: int, date: Option<int>): (r: string)
    ensures date.None? <==> r == "Sem atividade"
    ensures date.Some? && nowMs - date.value < MsPerMinute <==> r == "agora"
  {
    match AgoOf(nowMs, date)
    case NoActivity => "Sem atividade"
    case JustNow => "agora"
    case MinutesAgo(n) => Counted(n, "min")
    case HoursAgo(n) => Counted(n, "h")
    case DaysAgo(n) => Counted(n, "d")
  }

  /** The count in a label reads back from its digits. */
  lemma CountedReadsBack(n: nat, suffix: string)
    ensures exists digits :: Counted(n, suffix) == "há " + digits + suffix
                             && (forall i :: 0 <= i < |digits| ==> IsDigit(digits[i]))
                             && DigitsValue(digits) == n
  {
    NatToStringValue(n);
    assert Counted(n, suffix) == "há " + NatToString(n) + suffix;
  }

  /** The number printed in the label reads back as the whole count of the coarsest unit that fits. */
  lemma TimeAgoReadsBack(nowMs: int, date: int)
    requires nowMs - date >= MsPerMinute
    ensures var diff := nowMs - date;
      var unitMs := if diff < MsPerHour then MsPerMinute else if diff < MsPerDay then MsPerHour else MsPerDay;
      var suffix := if diff < MsPerHour then "min" else if diff < MsPerDay then "h" else "d";
      exists digits :: GetTimeAgo(nowMs, Some(date)) == "há " + digits + suffix
                       && (forall i :: 0 <= i < |digits| ==> IsDigit(digits[i]))
                       && DigitsValue(digits) == diff / unitMs
  {
    var diff := nowMs - date;
    var unitMs := if diff < MsPerHour then MsPerMinute else if diff < MsPerDay then MsPerHour else MsPerDay;
    var suffix := if diff < MsPerHour then "min" else if diff < MsPerDay then "h" else "d";
    var n: nat := diff / unitMs;
    assert AgoOf(nowMs, Some(date)) == (if diff < MsPerHour then MinutesAgo(n) else if diff < MsPerDay then HoursAgo(n) else DaysAgo(n));
    assert GetTimeAgo(nowMs, Some(date)) == Counted(n, suffix);
    CountedReadsBack(n, suffix);
  }

  // ---------------------------------------------------------------------
  // Traffic level
  // ---------------------------------------------------------------------

  datatype TrafficLevel = Low | Medium | High

  function TrafficLevelOf(requestsToday: nat): (l: TrafficLevel)
    ensures l == High <==> requestsToday > 100
    ensures l == Medium <==> 20 < requestsToday <= 100
    ensures l == Low <==> requestsToday <= 20
  {
    if requestsToday > 100 then High
    else if requestsToday > 20 then Medium
    else Low
  }

  // ---------------------------------------------------------------------
  // Hourly buckets
  // ---------------------------------------------------------------------

  /** `new Date(ts).getHours()` for a fixed local-time offset. */
  function LocalHour(ts: int, offsetMs: int): (h: nat)
    ensures h < 24
  {
    ((ts + offsetMs) / MsPerHour) % 24
  }

  function Zeros(n: nat): (s: seq<nat>)
    ensures |s| == n && forall i :: 0 <= i < n ==> s[i] == 0
  {
    seq(n, _ => 0)
  }

  /** The 24 counters after the `forEach` has run over `logs`. */
  function Buckets(logs: seq<int>, offsetMs: int): (c: seq<nat>)
    ensures |c| == 24
  {
    if logs == [] then Zeros(24)
    else
      var before := Buckets(logs[..|logs| - 1], offsetMs);
      var h := LocalHour(logs[|logs| - 1], offsetMs);
      before[h := before[h] + 1]
  }

  function Sum(s: seq<nat>): nat
  {
    if s == [] then 0 else s[0] + Sum(s[1..])
  }

  /** One increment at slot `h` adds one to the sum of every suffix that holds slot `h`. */
  lemma {:induction false} SumBump(s: seq<nat>, h: nat, lo: nat)
    requires h < |s| && lo <= |s|
    ensures Sum(s[h := s[h] + 1][lo..]) == Sum(s[lo..]) + (if h >= lo then 1 else 0)
    decreases |s| - lo
  {
    var t := s[h := s[h] + 1];
    if lo < |s| {
      SumBump(s, h, lo + 1);
      assert t[lo..][1..] == t[lo + 1..];
      assert s[lo..][1..] == s[lo + 1..];
    } else {
      assert t[lo..] == [] && s[lo..] == [];
    }
  }

  lemma {:induction false} ZerosSum(n: nat, lo: nat)
    requires lo <= n
    ensures Sum(Zeros(n)[lo..]) == 0
    decreases n - lo
  {
    if lo < n {
      ZerosSum(n, lo + 1);
      assert Zeros(n)[lo..][1..] == Zeros(n)[lo + 1..];
    } else {
      assert Zeros(n)[lo..] == [];
    }
  }

  /**
   * The counters from hour `lo` on add up to the number of logs whose local
   * hour is at least `lo`; from hour 0 they add up to the number of logs.
   */
  lemma {:induction false} BucketsSumFrom(logs: seq<int>, offsetMs: int, lo: nat)
    requires lo <= 24
    ensures Sum(Buckets(logs, offsetMs)[lo..]) == CountIf(logs, (t: int) => LocalHour(t, offsetMs) >= lo)
  {
    var p := (t: int) => LocalHour(t, offsetMs) >= lo;
    if logs == [] {
      ZerosSum(24, lo);
    } else {
      var init := logs[..|logs| - 1];
      var last := logs[|logs| - 1];
      BucketsSumFrom(init, offsetMs, lo);
      SumBump(Buckets(init, offsetMs), LocalHour(last, offsetMs), lo);
      assert logs == init + [last];
      CountIfSnoc(init, last, p);
    }
  }

  lemma {:induction false} CountIfSnoc<T>(xs: seq<T>, x: T, p: T -> bool)
    ensures CountIf(xs + [x], p) == CountIf(xs, p) + (if p(x) then 1 else 0)
  {
    if xs != [] {
      CountIfSnoc(xs[1..], x, p);
      assert (xs + [x])[1..] == xs[1..] + [x];
    } else {
      assert (xs + [x])[1..] == [];
    }
  }

  /** Counter `h` holds the number of logs whose local hour is `h`. */
  lemma {:induction false} BucketCountsItsHour(logs: seq<int>, offsetMs: int, h: nat)
    requires h < 24
    ensures Buckets(logs, offsetMs)[h] == CountIf(logs, (t: int) => LocalHour(t, offsetMs) == h)
  {
    if logs != [] {
      var init := logs[..|logs| - 1];
      var last := logs[|logs| - 1];
      BucketCountsItsHour(init, offsetMs, h);
      assert logs == init + [last];
      CountIfSnoc(init, last, (t: int) => LocalHour(t, offsetMs) == h);
    }
  }

  /** Every one of today's logs lands in exactly one counter. */
  lemma BucketsCountEveryLog(logs: seq<int>, offsetMs: int)
    ensures Sum(Buckets(logs, offsetMs)) == |logs|
  {
    BucketsSumFrom(logs, offsetMs, 0);
    assert Buckets(logs, offsetMs)[0..] == Buckets(logs, offsetMs);
    CountIfAll(logs, (t: int) => LocalHour(t, offsetMs) >= 0);
  }

  lemma {:induction false} CountIfAll<T>(xs: seq<T>, p: T -> bool)
    requires forall i :: 0 <= i < |xs| ==> p(xs[i])
    ensures CountIf(xs, p) == |xs|
  {
    if xs != [] {
      CountIfAll(xs[1..], p);
    }
  }

  /** The `forEach` over today's logs, filling a fresh 24-slot counter array. */
  method HourlyActivity(todayLogs: seq<int>, offsetMs: int) returns (hourly: array<nat>)
    ensures fresh(hourly) && hourly.Length == 24
    ensures hourly[..] == Buckets(todayLogs, offsetMs)
  {
    hourly := new nat[24](_ => 0);
    assert hourly[..] == Zeros(24);
    for i := 0 to |todayLogs|
      invariant hourly[..] == Buckets(todayLogs[..i], offsetMs)
    {
      var hour := LocalHour(todayLogs[i], offsetMs);
      hourly[hour] := hourly[hour] + 1;
      assert todayLogs[..i + 1][..i] == todayLogs[..i];
    }
    assert todayLogs[..|todayLogs|] == todayLogs;
  }

  // ---------------------------------------------------------------------
  // Per-domain stats
  // ---------------------------------------------------------------------

  /** One entry of `domainStats`. */
  datatype DomainStat = DomainStat(requestsToday: nat, lastActivity: Option<int>, hourlyActivity: seq<nat>, trafficLevel: TrafficLevel)

  /** What a failed log fetch records. */
  const FetchFailed := DomainStat(0, None, [0, 0, 0, 0, 0, 0], Low)

  /** The logs stamped at or after the start of the local day. */
  function TodayLogs(logs: seq<int>, todayStart: int): seq<int>
  {
    Filter(logs, (t: int) => t >= todayStart)
  }

  /** The entry for a domain whose logs (newest first) were fetched, or `None` when the fetch threw. */
  function StatFor(fetched: Option<seq<int>>, todayStart: int, offsetMs: int): (s: DomainStat)
    ensures fetched.None? ==> s == FetchFailed
    ensures |s.hourlyActivity| == 6
    ensures fetched.Some? ==> s.requestsToday == |TodayLogs(fetched.value, todayStart)|
    ensures fetched.Some? ==> s.lastActivity == (if |fetched.value| > 0 then Some(fetched.value[0]) else None)
    ensures fetched.Some? ==> s.hourlyActivity == Buckets(TodayLogs(fetched.value, todayStart), offsetMs)[18..]
    ensures s.trafficLevel == TrafficLevelOf(s.requestsToday)
  {
    match fetched
    case None => FetchFailed
    case Some(logs) =>
      var today := TodayLogs(logs, todayStart);
      DomainStat(|today|, if |logs| > 0 then Some(logs[0]) else None, Buckets(today, offsetMs)[18..], TrafficLevelOf(|today|))
  }

  /** Slot `k` of the kept series counts today's logs stamped in local hour 18 + k. */
  lemma SeriesSlotsAreHours(logs: seq<int>, todayStart: int, offsetMs: int)
    ensures var s := StatFor(Some(logs), todayStart, offsetMs);
      forall k :: 0 <= k < 6 ==>
        s.hourlyActivity[k] == CountIf(TodayLogs(logs, todayStart), (t: int) => LocalHour(t, offsetMs) == 18 + k)
  {
    var today := TodayLogs(logs, todayStart);
    forall h | 18 <= h < 24
      ensures Buckets(today, offsetMs)[h] == CountIf(today, (t: int) => LocalHour(t, offsetMs) == h)
    {
      BucketCountsItsHour(today, offsetMs, h);
    }
  }

  /**
   * The six counters kept are those of hours 18 to 23 of the local day, not
   * the six hours before now: they add up to the number of today's logs
   * stamped from 18:00 on.
   */
  lemma SeriesIsEveningHours(logs: seq<int>, todayStart: int, offsetMs: int)
    ensures var s := StatFor(Some(logs), todayStart, offsetMs);
      Sum(s.hourlyActivity) == CountIf(TodayLogs(logs, todayStart), (t: int) => LocalHour(t, offsetMs) >= 18)
      && Sum(s.hourlyActivity) <= s.requestsToday
  {
    var today := TodayLogs(logs, todayStart);
    BucketsSumFrom(today, offsetMs, 18);
  }

  /** The body of the per-domain loop. */
  method DomainStats(fetched: Option<seq<int>>, todayStart: int, offsetMs: int) returns (s: DomainStat)
    ensures s == StatFor(fetched, todayStart, offsetMs)
  {
    if fetched.None? {
      return FetchFailed;
    }
    var logs := fetched.value;
    var todayLogs := TodayLogs(logs, todayStart);
    var requestsToday := |todayLogs|;
    var lastActivity := if |logs| > 0 then Some(logs[0]) else None;
    var hourlyActivity := HourlyActivity(todayLogs, offsetMs);
    var last6Hours := hourlyActivity[18..];
    var trafficLevel := Low;
    if requestsToday > 100 {
      trafficLevel := High;
    } else if requestsToday > 20 {
      trafficLevel := Medium;
    }
    s := DomainStat(requestsToday, lastActivity, last6Hours, trafficLevel);
  }

  /** `loadDomainStats`: one entry per domain id, each computed from that domain's own fetch. */
  method LoadDomainStats(domains: seq<string>, fetch: string -> Option<seq<int>>, todayStart: int, offsetMs: int)
    returns (stats: map<string, DomainStat>)
    ensures stats.Keys == set d | d in domains
    ensures forall d :: d in stats ==> stats[d] == StatFor(fetch(d), todayStart, offsetMs)
  {
    stats := map[];
    for i := 0 to |domains|
      invariant stats.Keys == set d | d in domains[..i]
      invariant forall d :: d in stats ==> stats[d] == StatFor(fetch(d), todayStart, offsetMs)
    {
      var s := DomainStats(fetch(domains[i]), todayStart, offsetMs);
      stats := stats[domains[i] := s];
      assert domains[..i + 1] == domains[..i] + [domains[i]];
    }
    assert domains[..|domains|] == domains;
  }
}
