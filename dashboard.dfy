/**
 * The dashboard page (dashboard.js, `DashboardManager`): the selected time range
 * and category filter, and everything it computes from the two storage
 * documents — the filtered days, the summary statistics, the websites list, the
 * two charts, the insights and the weekly report.
 */
module Dashboard {
  import opened Wrappers
  import opened JsObject
  import opened Category
  import opened Storage
  import opened Aggregate

  /** Eight hours, the screen-time threshold of the recommendations. */
  const EightHoursMs := 8 * 60 * 60 * 1000

  /** The first day a time-range selection keeps; any unknown value keeps everything since the epoch. */
  function Cutoff(timeRange: string, today: Day): Day {
    if timeRange == "today" then today
    else if timeRange == "week" then today - 7
    else if timeRange == "month" then today - 30
    else 0
  }

  /** `filtered[date] = sites` for every day on or after the cutoff, in order. */
  function FilterFrom(dd: DailyData, cutoff: Day): DailyData {
    if dd == [] then []
    else
      var acc := FilterFrom(dd[..|dd| - 1], cutoff);
      var e := dd[|dd| - 1];
      if e.0 >= cutoff then Put(acc, e.0, e.1) else acc
  }

  /** The filtered days are exactly the stored days from the cutoff on, with their buckets unchanged. */
  lemma {:induction false} FilterFromGet(dd: DailyData, cutoff: Day, day: Day)
    requires KeysUnique(dd)
    ensures Get(FilterFrom(dd, cutoff), day) == if day >= cutoff then Get(dd, day) else None
  {
    if dd != [] {
      var dd0 := dd[..|dd| - 1];
      var e := dd[|dd| - 1];
      KeysUniqueSnoc(dd);
      FilterFromGet(dd0, cutoff, day);
      GetAppend(dd0, e, day);
      if e.0 >= cutoff {
        GetPut(FilterFrom(dd0, cutoff), e.0, e.1, day);
      }
    }
  }

  /**
   * The ranges nest: every day "today" keeps, "week" keeps with the same bucket,
   * every day "week" keeps, "month" keeps, and from a month after the epoch on,
   * every day "month" keeps, "all" keeps.
   */
  lemma RangesNest(dd: DailyData, today: Day, day: Day)
    requires KeysUnique(dd)
    ensures var kept := Get(FilterFrom(dd, Cutoff("today", today)), day);
      kept.Some? ==> Get(FilterFrom(dd, Cutoff("week", today)), day) == kept
    ensures var kept := Get(FilterFrom(dd, Cutoff("week", today)), day);
      kept.Some? ==> Get(FilterFrom(dd, Cutoff("month", today)), day) == kept
    ensures var kept := Get(FilterFrom(dd, Cutoff("month", today)), day);
      today >= 30 && kept.Some? ==> Get(FilterFrom(dd, Cutoff("all", today)), day) == kept
  {
    FilterFromGet(dd, Cutoff("today", today), day);
    FilterFromGet(dd, Cutoff("week", today), day);
    FilterFromGet(dd, Cutoff("month", today), day);
    FilterFromGet(dd, Cutoff("all", today), day);
  }

  /** The figures `updateStats` shows. */
  datatype Stats = Stats(totalTime: nat, productiveTime: nat, focusSessions: nat, score: nat)

  /** The aggregate `updateWebsitesList` builds per domain. */
  datatype SiteStat = SiteStat(totalTime: nat, visits: nat)

  /** One turn of the loop: `siteStats[domain] ||= {0, 0}; totalTime += time; visits += 1`. */
  function SiteStatStep(acc: Obj<Domain, SiteStat>, e: Entry): Obj<Domain, SiteStat> {
    var st := Get(acc, e.0).GetOr(SiteStat(0, 0));
    var updated := SiteStat(st.totalTime + e.1, st.visits + 1);
    Put(acc, e.0, updated)
  }

  /** The loop run over the entries, in order, on the object acc. */
  function SiteStatsInto(acc: Obj<Domain, SiteStat>, es: seq<Entry>): Obj<Domain, SiteStat> {
    if es == [] then acc else SiteStatStep(SiteStatsInto(acc, es[..|es| - 1]), es[|es| - 1])
  }

  /** The loop run over the entries on a fresh `{}`. */
  function SiteStatsOf(es: seq<Entry>): Obj<Domain, SiteStat> {
    SiteStatsInto([], es)
  }

  /** Running the loop over a + b is running it over a and then, on the result, over b. */
  lemma {:induction false} SiteStatsIntoAppend(acc: Obj<Domain, SiteStat>, a: seq<Entry>, b: seq<Entry>)
    ensures SiteStatsInto(acc, a + b) == SiteStatsInto(SiteStatsInto(acc, a), b)
    decreases |b|
  {
    if b == [] {
      assert a + b == a;
    } else {
      var b0 := b[..|b| - 1];
      assert (a + b)[..|a + b| - 1] == a + b0;
      assert (a + b)[|a + b| - 1] == b[|b| - 1];
      SiteStatsIntoAppend(acc, a, b0);
    }
  }

  /** Each domain's aggregate is the sum and the number of its entries; a domain without entries has none. */
  lemma {:induction false} SiteStatsOfGet(es: seq<Entry>, d: Domain)
    ensures Get(SiteStatsOf(es), d) == if EntryCount(es, d) == 0 then None else Some(SiteStat(EntrySum(es, d), EntryCount(es, d)))
  {
    if es != [] {
      var es0 := es[..|es| - 1];
      var acc := SiteStatsOf(es0);
      var e: Entry := es[|es| - 1];
      var st := Get(acc, e.0).GetOr(SiteStat(0, 0));
      var updated := SiteStat(st.totalTime + e.1, st.visits + 1);
      assert SiteStatsOf(es) == Put(acc, e.0, updated);
      SiteStatsOfGet(es0, d);
      SiteStatsOfGet(es0, e.0);
      EntryCountZero(es0, e.0);
      GetPut(acc, e.0, updated, d);
    }
  }

  lemma {:induction false} SiteStatsOfKeys(es: seq<Entry>)
    ensures KeysUnique(SiteStatsOf(es))
    ensures forall i :: 0 <= i < |SiteStatsOf(es)| ==> Get(SiteStatsOf(es), SiteStatsOf(es)[i].0) == Some(SiteStatsOf(es)[i].1)
  {
    var r := SiteStatsOf(es);
    if es != [] {
      var es0 := es[..|es| - 1];
      var acc := SiteStatsOf(es0);
      var e: Entry := es[|es| - 1];
      var st := Get(acc, e.0).GetOr(SiteStat(0, 0));
      var updated := SiteStat(st.totalTime + e.1, st.visits + 1);
      assert r == Put(acc, e.0, updated);
      SiteStatsOfKeys(es0);
      PutKeysUnique(acc, e.0, updated);
    }
    forall i | 0 <= i < |r| ensures Get(r, r[i].0) == Some(r[i].1) {
      IndexOfUnique(r, i);
    }
  }

  /** `category?.type === categoryFilter`, every domain passing when the filter is 'all'. */
  predicate PassesFilter(td: TimeData, d: Domain, filter: string) {
    filter == "all" || (KindOf(td, d).Some? && TypeName(KindOf(td, d).value) == filter)
  }

  /** `filteredSites.filter(([domain]) => ...)`. */
  function FilterSites(td: TimeData, sites: seq<(Domain, SiteStat)>, filter: string): (r: seq<(Domain, SiteStat)>)
    ensures forall x :: x in r <==> x in sites && PassesFilter(td, x.0, filter)
  {
    if sites == [] then []
    else
      var acc := FilterSites(td, sites[..|sites| - 1], filter);
      var x := sites[|sites| - 1];
      assert sites == sites[..|sites| - 1] + [x];
      if PassesFilter(td, x.0, filter) then acc + [x] else acc
  }

  function SiteTime(x: (Domain, SiteStat)): nat {
    x.1.totalTime
  }

  /** With the filter 'all' every site passes, in order. */
  lemma {:induction false} FilterSitesAll(td: TimeData, sites: seq<(Domain, SiteStat)>)
    ensures FilterSites(td, sites, "all") == sites
  {
    if sites != [] {
      FilterSitesAll(td, sites[..|sites| - 1]);
      assert sites == sites[..|sites| - 1] + [sites[|sites| - 1]];
    }
  }

  /** Filtering a list without repeats gives a list without repeats. */
  lemma {:induction false} FilterSitesDistinct(td: TimeData, sites: seq<(Domain, SiteStat)>, filter: string)
    requires Distinct(sites)
    ensures Distinct(FilterSites(td, sites, filter))
  {
    if sites != [] {
      var s0 := sites[..|sites| - 1];
      assert Distinct(s0);
      FilterSitesDistinct(td, s0, filter);
      assert sites[|sites| - 1] !in s0;
    }
  }

  /** What the websites list shows. */
  datatype SitesView = NoWebsitesFound | Websites(rows: seq<(Domain, SiteStat)>)

  /** The websites list: all days aggregated, filtered by category, largest first, at most ten. */
  function WebsitesView(td: TimeData, dd: DailyData, filter: string): SitesView {
    var sites := PassingSites(td, dd, filter);
    if |sites| == 0 then NoWebsitesFound else Websites(Take(SortDesc(sites, SiteTime), 10))
  }

  /** The aggregated sites of all days that pass the filter, before sorting. */
  function PassingSites(td: TimeData, dd: DailyData, filter: string): seq<(Domain, SiteStat)> {
    FilterSites(td, SiteStatsOf(Flatten(dd)), filter)
  }

  /** The aggregate of domain d over all days. */
  function DaysStat(dd: DailyData, d: Domain): SiteStat {
    SiteStat(DomainTotal(dd, d), DaysWith(dd, d))
  }

  /** Over well-formed days, each aggregate is its domain's total over days and the number of days it was seen on. */
  lemma SiteStatsOfDays(dd: DailyData)
    requires forall i :: 0 <= i < |dd| ==> KeysUnique(dd[i].1)
    ensures forall x :: x in SiteStatsOf(Flatten(dd)) ==>
      x.1 == SiteStat(DomainTotal(dd, x.0), DaysWith(dd, x.0)) && x.1.visits >= 1
    ensures forall d :: DaysWith(dd, d) > 0 ==> (d, SiteStat(DomainTotal(dd, d), DaysWith(dd, d))) in SiteStatsOf(Flatten(dd))
  {
    var es := Flatten(dd);
    var stats := SiteStatsOf(es);
    SiteStatsOfKeys(es);
    forall x | x in stats
      ensures x.1 == SiteStat(DomainTotal(dd, x.0), DaysWith(dd, x.0)) && x.1.visits >= 1
    {
      var i :| 0 <= i < |stats| && stats[i] == x;
      SiteStatsOfGet(es, x.0);
      FlattenEntries(dd, x.0);
    }
    forall d | DaysWith(dd, d) > 0 ensures (d, SiteStat(DomainTotal(dd, d), DaysWith(dd, d))) in stats {
      FlattenEntries(dd, d);
      SiteStatsOfGet(es, d);
      var i := IndexOf(stats, d);
      assert stats[i] in stats;
    }
  }

  /**
   * Over well-formed storage, each row's visits is the number of days its domain
   * was seen on and its time is the domain's total over days; the rows pass
   * the filter and are sorted largest first, at most ten; the list is empty
   * exactly when no domain seen passes the filter.
   */
  lemma WebsitesViewRows(td: TimeData, dd: DailyData, filter: string)
    requires WellFormed(td, dd)
    ensures WebsitesView(td, dd, filter).NoWebsitesFound? <==>
      forall d :: DaysWith(dd, d) > 0 ==> !PassesFilter(td, d, filter)
    ensures WebsitesView(td, dd, filter).Websites? ==>
      var rows := WebsitesView(td, dd, filter).rows;
      && 1 <= |rows| <= 10
      && SortedDesc(rows, SiteTime)
      && forall x :: x in rows ==>
           && x.1 == SiteStat(DomainTotal(dd, x.0), DaysWith(dd, x.0))
           && x.1.visits >= 1
           && PassesFilter(td, x.0, filter)
  {
    var stats := SiteStatsOf(Flatten(dd));
    var sites := FilterSites(td, stats, filter);
    SiteStatsOfDays(dd);
    if |sites| > 0 {
      TopN(sites, SiteTime, 10);
    } else {
      forall d | DaysWith(dd, d) > 0 ensures !PassesFilter(td, d, filter) {
        var x := (d, SiteStat(DomainTotal(dd, d), DaysWith(dd, d)));
        assert x in stats;
      }
    }
    forall d | DaysWith(dd, d) > 0 && PassesFilter(td, d, filter) ensures |sites| > 0 {
      var x := (d, SiteStat(DomainTotal(dd, d), DaysWith(dd, d)));
      assert x in sites;
    }
  }

  /** The passing sites have no repeats, hold each domain's aggregate over days, and every passing domain seen. */
  lemma PassingSitesFacts(td: TimeData, dd: DailyData, filter: string)
    requires WellFormed(td, dd)
    ensures Distinct(PassingSites(td, dd, filter))
    ensures forall x :: x in PassingSites(td, dd, filter) ==> x.1 == DaysStat(dd, x.0)
    ensures forall d :: DaysWith(dd, d) > 0 && PassesFilter(td, d, filter) ==> (d, DaysStat(dd, d)) in PassingSites(td, dd, filter)
  {
    var stats := SiteStatsOf(Flatten(dd));
    SiteStatsOfDays(dd);
    SiteStatsOfKeys(Flatten(dd));
    assert Distinct(stats);
    FilterSitesDistinct(td, stats, filter);
  }

  /** Sites without repeats whose aggregate is fixed by their domain keep distinct domains in the first ten. */
  lemma TopRowsDistinctDomains(dd: DailyData, sites: seq<(Domain, SiteStat)>)
    requires Distinct(sites) && forall x :: x in sites ==> x.1 == DaysStat(dd, x.0)
    ensures var rows := Take(SortDesc(sites, SiteTime), 10);
      forall i, j :: 0 <= i < j < |rows| ==> rows[i].0 != rows[j].0
  {
    var rows := Take(SortDesc(sites, SiteTime), 10);
    TopN(sites, SiteTime, 10);
    TopNDistinct(sites, SiteTime, 10);
    forall i, j | 0 <= i < j < |rows| ensures rows[i].0 != rows[j].0 {
      assert rows[i] in rows && rows[j] in rows;
    }
  }

  lemma NotInByDomain(rows: seq<(Domain, SiteStat)>, x: (Domain, SiteStat))
    requires forall i :: 0 <= i < |rows| ==> rows[i].0 != x.0
    ensures x !in rows
  {
  }

  /** A site missing from the first ten (rows) has no more time than the last one shown. */
  lemma TopRowsLeftOutTime(sites: seq<(Domain, SiteStat)>, rows: seq<(Domain, SiteStat)>, x: (Domain, SiteStat))
    requires |sites| > 0 && rows == Take(SortDesc(sites, SiteTime), 10)
    requires x in sites && forall i :: 0 <= i < |rows| ==> rows[i].0 != x.0
    ensures x.1.totalTime <= rows[|rows| - 1].1.totalTime
  {
    NotInByDomain(rows, x);
    assert rows[|rows| - 1] in rows;
    TopNLeftOut(sites, SiteTime, 10, x, rows[|rows| - 1]);
  }

  /** The rows of the websites list have distinct domains. */
  lemma WebsitesViewDistinct(td: TimeData, dd: DailyData, filter: string)
    requires WellFormed(td, dd)
    ensures WebsitesView(td, dd, filter).Websites? ==>
      var rows := WebsitesView(td, dd, filter).rows;
      forall i, j :: 0 <= i < j < |rows| ==> rows[i].0 != rows[j].0
  {
    var sites := PassingSites(td, dd, filter);
    PassingSitesFacts(td, dd, filter);
    TopRowsDistinctDomains(dd, sites);
    if WebsitesView(td, dd, filter).Websites? {
      assert WebsitesView(td, dd, filter).rows == Take(SortDesc(sites, SiteTime), 10);
    }
  }

  /** Fewer than ten rows only when every domain seen that passes the filter has its row. */
  lemma WebsitesViewComplete(td: TimeData, dd: DailyData, filter: string)
    requires WellFormed(td, dd)
    ensures WebsitesView(td, dd, filter).Websites? ==>
      var rows := WebsitesView(td, dd, filter).rows;
      |rows| < 10 ==> forall d :: DaysWith(dd, d) > 0 && PassesFilter(td, d, filter) ==> (d, DaysStat(dd, d)) in rows
  {
    var sites := PassingSites(td, dd, filter);
    PassingSitesFacts(td, dd, filter);
    if |Take(SortDesc(sites, SiteTime), 10)| < 10 {
      TopNAll(sites, SiteTime, 10);
    }
  }

  /** A domain seen that passes the filter but has no row has no more time than the last row. */
  lemma WebsitesViewLeftOut(td: TimeData, dd: DailyData, filter: string)
    requires WellFormed(td, dd)
    ensures WebsitesView(td, dd, filter).Websites? ==>
      var rows := WebsitesView(td, dd, filter).rows;
      forall d :: DaysWith(dd, d) > 0 && PassesFilter(td, d, filter) && (forall i :: 0 <= i < |rows| ==> rows[i].0 != d) ==>
        DomainTotal(dd, d) <= rows[|rows| - 1].1.totalTime
  {
    var sites := PassingSites(td, dd, filter);
    if |sites| > 0 {
      var rows := Take(SortDesc(sites, SiteTime), 10);
      PassingSitesFacts(td, dd, filter);
      forall d | DaysWith(dd, d) > 0 && PassesFilter(td, d, filter) && (forall i :: 0 <= i < |rows| ==> rows[i].0 != d)
        ensures DomainTotal(dd, d) <= rows[|rows| - 1].1.totalTime
      {
        TopRowsLeftOutTime(sites, rows, (d, DaysStat(dd, d)));
      }
    }
  }

  /**
   * `slice(0, 10)` of the sorted list: the rows have distinct domains, there are
   * fewer than ten only when every domain seen that passes the filter has a row
   * (so there are min(10, such domains) rows), and a passing domain without a
   * row has no more time than the last row shown.
   */
  lemma WebsitesViewTop(td: TimeData, dd: DailyData, filter: string)
    requires WellFormed(td, dd)
    ensures WebsitesView(td, dd, filter).Websites? ==>
      var rows := WebsitesView(td, dd, filter).rows;
      && (forall i, j :: 0 <= i < j < |rows| ==> rows[i].0 != rows[j].0)
      && (|rows| < 10 ==> forall d :: DaysWith(dd, d) > 0 && PassesFilter(td, d, filter) ==> (d, DaysStat(dd, d)) in rows)
      && (forall d :: DaysWith(dd, d) > 0 && PassesFilter(td, d, filter) && (forall i :: 0 <= i < |rows| ==> rows[i].0 != d) ==>
            DomainTotal(dd, d) <= rows[|rows| - 1].1.totalTime)
  {
    WebsitesViewDistinct(td, dd, filter);
    WebsitesViewComplete(td, dd, filter);
    WebsitesViewLeftOut(td, dd, filter);
  }

  /** When the two documents are consistent, a row's time is also its domain record's total. */
  lemma WebsitesViewConsistent(td: TimeData, dd: DailyData, filter: string)
    requires WellFormed(td, dd) && Consistent(td, dd)
    ensures WebsitesView(td, dd, filter).Websites? ==>
      forall x :: x in WebsitesView(td, dd, filter).rows ==> x.1.totalTime == RecordTotal(td, x.0)
  {
    WebsitesViewRows(td, dd, filter);
  }

  /** One point of the daily chart: minutes on the day, or its rounded productivity score. */
  function DayPoint(td: TimeData, b: Bucket, chart: string): nat {
    if chart == "time" then MinutesRounded(ValuesSum(b))
    else Score(KindTotal(td, b, Productive), ValuesSum(b))
  }

  /** A day without a bucket plots as 0; a score point is a percentage. */
  lemma DayPointBounds(td: TimeData, b: Bucket, chart: string)
    ensures b == [] ==> DayPoint(td, b, chart) == 0
    ensures chart != "time" ==> DayPoint(td, b, chart) <= 100
  {
    KindTotalsBound(td, b);
  }

  datatype Insight =
    | MostVisitedSite(domain: Domain, time: nat)
    | ProductivityAnalysis(score: nat, message: string)
    | PeakActivityTime
    | WeeklyPattern

  /** The verdict attached to a productivity score. */
  function ScoreMessage(score: nat): string {
    if score >= 70 then "Excellent! You maintain high productivity levels."
    else if score >= 50 then "Good productivity, but there's room for improvement."
    else "Consider focusing more time on productive activities."
  }

  /** The cards built from the loop's totals, the per-domain times and the number of days. */
  function InsightCards(total: nat, productive: nat, siteTimes: Obj<Domain, nat>, days: nat): seq<Insight> {
    if total == 0 then []
    else
      var sorted := SortDesc(siteTimes, Amount);
      var withTop: seq<Insight> := if |sorted| > 0 then [MostVisitedSite(sorted[0].0, sorted[0].1)] else [];
      var score := Score(productive, total);
      var withPeak := withTop + [ProductivityAnalysis(score, ScoreMessage(score))] + [PeakActivityTime];
      if days >= 7 then withPeak + [WeeklyPattern] else withPeak
  }

  /** The cards `calculateInsights()` produces over the given days. */
  function InsightsOf(td: TimeData, dd: DailyData): seq<Insight> {
    var es := Flatten(dd);
    InsightCards(ValuesSum(es), KindTotal(td, es, Productive), Group(td, ByDomain, es), |dd|)
  }

  /** The cards in order, once some time is recorded and some domain has it. */
  lemma InsightCardsShape(total: nat, productive: nat, siteTimes: Obj<Domain, nat>, days: nat)
    ensures InsightCards(total, productive, siteTimes, days) == [] <==> total == 0
    ensures total > 0 && |siteTimes| > 0 ==>
      var cards := InsightCards(total, productive, siteTimes, days);
      var top := SortDesc(siteTimes, Amount)[0];
      var score := Score(productive, total);
      && |cards| == (if days >= 7 then 4 else 3)
      && cards[0] == MostVisitedSite(top.0, top.1)
      && cards[1] == ProductivityAnalysis(score, ScoreMessage(score))
      && cards[2] == PeakActivityTime
      && (days >= 7 ==> cards[3] == WeeklyPattern)
  {
  }

  /**
   * No cards when no time is recorded; otherwise the site with the most time
   * (no domain has more), the productivity verdict for a percentage, the
   * peak-time card, and the weekly-pattern card once there are seven days.
   */
  lemma InsightsShape(td: TimeData, dd: DailyData)
    ensures var es := Flatten(dd); var insights := InsightsOf(td, dd);
      && (insights == [] <==> ValuesSum(es) == 0)
      && (ValuesSum(es) > 0 ==>
            var score := Score(KindTotal(td, es, Productive), ValuesSum(es));
            && |insights| == (if |dd| >= 7 then 4 else 3)
            && insights[0].MostVisitedSite?
            && insights[0].time == EntrySum(es, insights[0].domain)
            && (forall d :: EntrySum(es, d) <= insights[0].time)
            && insights[1] == ProductivityAnalysis(score, ScoreMessage(score))
            && score <= 100
            && insights[2] == PeakActivityTime
            && (|dd| >= 7 ==> insights[3] == WeeklyPattern))
  {
    var es := Flatten(dd);
    var total := ValuesSum(es);
    var productive := KindTotal(td, es, Productive);
    var siteTimes := Group(td, ByDomain, es);
    assert InsightsOf(td, dd) == InsightCards(total, productive, siteTimes, |dd|);
    InsightCardsShape(total, productive, siteTimes, |dd|);
    if total > 0 {
      TopSite(td, es);
      KindTotalsBound(td, es);
    }
  }

  const BlockerTip := "Consider using website blockers during work hours to reduce distractions."
  const PomodoroTip := "Try the Pomodoro Technique: 25 minutes of focused work followed by 5-minute breaks."
  const ScreenTimeTip := "Your screen time is quite high. Consider taking regular breaks to rest your eyes."
  const PraiseTip := "Great job maintaining high productivity! Keep up the good work."
  const SocialMediaTip := "Set specific times for checking social media to maintain focus."
  const DashboardTip := "Use the dashboard regularly to track your progress and stay motivated."

  /**
   * `generateRecommendations(score, totalTime)`: two tips for a low score, one
   * for more than eight hours, one for a high score, then always the two fixed
   * tips; so between two and five, each at most once, in that order.
   */
  function Recommendations(score: nat, totalTime: nat): (r: seq<string>)
    ensures 2 <= |r| <= 5
    ensures r[|r| - 2..] == [SocialMediaTip, DashboardTip]
    ensures (BlockerTip in r <==> score < 50) && (PomodoroTip in r <==> score < 50)
    ensures ScreenTimeTip in r <==> totalTime > EightHoursMs
    ensures PraiseTip in r <==> score >= 70
    ensures score < 50 ==> r[..2] == [BlockerTip, PomodoroTip]
    ensures 50 <= score < 70 && totalTime <= EightHoursMs ==> |r| == 2
    ensures |r| == 2 + (if score < 50 then 2 else 0) + (if totalTime > EightHoursMs then 1 else 0) + (if score >= 70 then 1 else 0)
    ensures ScreenTimeTip in r && PraiseTip in r ==> r[..2] == [ScreenTimeTip, PraiseTip]
  {
    var low := if score < 50 then [BlockerTip, PomodoroTip] else [];
    var long := if totalTime > EightHoursMs then [ScreenTimeTip] else [];
    var high := if score >= 70 then [PraiseTip] else [];
    var always := [SocialMediaTip, DashboardTip];
    var r := low + long + high + always;
    assert r[|r| - 2..] == always;
    assert forall x :: x in r <==> x in low || x in long || x in high || x in always;
    r
  }

  /** `getLastNDaysData(n)`: today's bucket, then yesterday's, back n days, skipping missing days. */
  function LastNDays(dd: DailyData, today: Day, n: nat): DailyData {
    if n == 0 then []
    else
      var acc := LastNDays(dd, today, n - 1);
      var day := today - (n - 1);
      if Has(dd, day) then Put(acc, day, Get(dd, day).value) else acc
  }

  /** The last n days are exactly the stored days in (today - n, today], with their buckets unchanged. */
  lemma {:induction false} LastNDaysGet(dd: DailyData, today: Day, n: nat, day: Day)
    ensures Get(LastNDays(dd, today, n), day) == if today - n < day <= today then Get(dd, day) else None
  {
    if n > 0 {
      var acc := LastNDays(dd, today, n - 1);
      var d0 := today - (n - 1);
      LastNDaysGet(dd, today, n - 1, day);
      if Has(dd, d0) {
        GetPut(acc, d0, Get(dd, d0).value, day);
      }
    }
  }

  datatype WeeklyReport = WeeklyReport(
    totalTime: nat,
    productiveTime: nat,
    productivityScore: nat,
    topCategories: seq<(string, nat)>,
    recommendations: seq<string>)

  /** The report built from the loop's totals and category groups. */
  function ReportFrom(total: nat, productive: nat, categories: Obj<string, nat>): WeeklyReport {
    var score := Score(productive, total);
    WeeklyReport(total, productive, score, Take(SortDesc(categories, Amount), 5), Recommendations(score, total))
  }

  /** The report `createWeeklyReportData()` builds from the last seven days. */
  function WeeklyReportOf(td: TimeData, dd: DailyData, today: Day): WeeklyReport {
    var es := Flatten(LastNDays(dd, today, 7));
    ReportFrom(ValuesSum(es), KindTotal(td, es, Productive), Group(td, ByRecordLabel, es))
  }

  /**
   * The report covers the last seven days: its totals, a percentage score, at
   * most five category labels largest first, each with its whole time, none
   * left out having more than one shown, and the recommendations for the score.
   */
  lemma WeeklyReportShape(td: TimeData, dd: DailyData, today: Day)
    ensures var r := WeeklyReportOf(td, dd, today); var es := Flatten(LastNDays(dd, today, 7));
      && r.totalTime == ValuesSum(es)
      && r.productiveTime == KindTotal(td, es, Productive) <= r.totalTime
      && r.productivityScore == Score(r.productiveTime, r.totalTime) <= 100
      && |r.topCategories| <= 5
      && SortedDesc(r.topCategories, Amount)
      && (forall c :: c in r.topCategories ==> c.1 == KeyTotal(td, ByRecordLabel, es, c.0))
      && (forall l :: (forall c :: c in r.topCategories ==> c.0 != l) ==>
            forall c :: c in r.topCategories ==> KeyTotal(td, ByRecordLabel, es, l) <= c.1)
      && r.recommendations == Recommendations(r.productivityScore, r.totalTime)
  {
    var es := Flatten(LastNDays(dd, today, 7));
    assert WeeklyReportOf(td, dd, today) == ReportFrom(ValuesSum(es), KindTotal(td, es, Productive), Group(td, ByRecordLabel, es));
    KindTotalsBound(td, es);
    TopGroups(td, ByRecordLabel, es, 5);
  }

  /*
   * The inner loops, `Object.entries(sites).forEach(([domain, time]) => ...)`,
   * over one day's bucket. Each takes the accumulators as the previous days
   * left them and returns them as they stand after this day's entries.
   */

  /** The inner loop of `updateWebsitesList`. */
  method AddDayToSiteStats(sites: Bucket, stats: Obj<Domain, SiteStat>) returns (siteStats: Obj<Domain, SiteStat>)
    ensures siteStats == SiteStatsInto(stats, sites)
  {
    siteStats := stats;
    var j := 0;
    while j < |sites|
      invariant 0 <= j <= |sites|
      invariant siteStats == SiteStatsInto(stats, sites[..j])
    {
      var entry: Entry := sites[j];
      var (domain, time) := entry;
      ghost var before := siteStats;
      if !Has(siteStats, domain) {
        PutHas(siteStats, domain, SiteStat(0, 0), domain);
        siteStats := Put(siteStats, domain, SiteStat(0, 0));
      }
      var st := Get(siteStats, domain).value;
      var updated := SiteStat(st.totalTime + time, st.visits + 1);
      DefaultThenPut(before, siteStats, domain, SiteStat(0, 0), updated);
      siteStats := Put(siteStats, domain, updated);
      PrefixSnoc(sites, j);
      j := j + 1;
    }
    assert sites[..j] == sites;
  }

  /** The inner loop of `updateCategoryChart`. */
  method AddDayToCategoryChart(td: TimeData, sites: Bucket, groups: Obj<string, nat>) returns (categories: Obj<string, nat>)
    ensures categories == GroupInto(td, ByChartLabel, groups, sites)
  {
    categories := groups;
    var j := 0;
    while j < |sites|
      invariant 0 <= j <= |sites|
      invariant categories == GroupInto(td, ByChartLabel, groups, sites[..j])
    {
      var entry: Entry := sites[j];
      var (domain, time) := entry;
      var category := OtherLabel;
      var rec := Get(td, domain);
      if rec.Some? && rec.value.category.name != "" {
        category := rec.value.category.name;
      }
      var t: nat := OrZero(categories, category) + time;
      categories := Put(categories, category, t);
      PrefixSnoc(sites, j);
      j := j + 1;
    }
    assert sites[..j] == sites;
  }

  /** The inner loop of `calculateInsights`. */
  method AddDayToInsights(td: TimeData, sites: Bucket, total: nat, productive: nat, times: Obj<Domain, nat>)
    returns (totalTime: nat, productiveTime: nat, siteTimes: Obj<Domain, nat>)
    ensures totalTime == total + ValuesSum(sites)
    ensures productiveTime == productive + KindTotal(td, sites, Productive)
    ensures siteTimes == GroupInto(td, ByDomain, times, sites)
  {
    totalTime, productiveTime, siteTimes := total, productive, times;
    var j := 0;
    while j < |sites|
      invariant 0 <= j <= |sites|
      invariant totalTime == total + ValuesSum(sites[..j])
      invariant productiveTime == productive + KindTotal(td, sites[..j], Productive)
      invariant siteTimes == GroupInto(td, ByDomain, times, sites[..j])
    {
      var entry: Entry := sites[j];
      var (domain, time) := entry;
      totalTime := totalTime + time;
      var t: nat := OrZero(siteTimes, domain) + time;
      siteTimes := Put(siteTimes, domain, t);
      if KindOf(td, domain) == Some(Productive) {
        productiveTime := productiveTime + time;
      }
      PrefixSnoc(sites, j);
      j := j + 1;
    }
    assert sites[..j] == sites;
  }

  /** The inner loop of `createWeeklyReportData`. */
  method AddDayToReport(td: TimeData, sites: Bucket, total: nat, productive: nat, groups: Obj<string, nat>)
    returns (totalTime: nat, productiveTime: nat, categories: Obj<string, nat>)
    ensures totalTime == total + ValuesSum(sites)
    ensures productiveTime == productive + KindTotal(td, sites, Productive)
    ensures categories == GroupInto(td, ByRecordLabel, groups, sites)
  {
    totalTime, productiveTime, categories := total, productive, groups;
    var j := 0;
    while j < |sites|
      invariant 0 <= j <= |sites|
      invariant totalTime == total + ValuesSum(sites[..j])
      invariant productiveTime == productive + KindTotal(td, sites[..j], Productive)
      invariant categories == GroupInto(td, ByRecordLabel, groups, sites[..j])
    {
      var entry: Entry := sites[j];
      var (domain, time) := entry;
      totalTime := totalTime + time;
      var rec := Get(td, domain);
      if rec.Some? {
        var category := rec.value.category;
        var t: nat := OrZero(categories, category.name) + time;
        categories := Put(categories, category.name, t);
        if category.kind == Productive {
          productiveTime := productiveTime + time;
        }
      }
      PrefixSnoc(sites, j);
      j := j + 1;
    }
    assert sites[..j] == sites;
  }

  class DashboardManager {
    /** The time-range selector: 'today', 'week', 'month' or anything else for all time. */
    var timeRange: string
    /** The category filter: 'all' or a category type name. */
    var categoryFilter: string
    var timeData: TimeData
    var dailyData: DailyData

    /** `new DashboardManager()` and `loadData()`: absent documents read as empty objects. */
    constructor (storedTimeData: Option<TimeData>, storedDailyData: Option<DailyData>)
      ensures timeRange == "week" && categoryFilter == "all"
      ensures timeData == storedTimeData.GetOr([]) && dailyData == storedDailyData.GetOr([])
    {
      timeRange := "week";
      categoryFilter := "all";
      timeData := storedTimeData.GetOr([]);
      dailyData := storedDailyData.GetOr([]);
    }

    /** The time-range selector's change handler. */
    method SetTimeRange(value: string)
      modifies this`timeRange
      ensures timeRange == value
    {
      timeRange := value;
    }

    /** The category filter's change handler. */
    method SetCategoryFilter(value: string)
      modifies this`categoryFilter
      ensures categoryFilter == value
    {
      categoryFilter := value;
    }

    /** `getFilteredData()` on calendar day today. */
    method GetFilteredData(today: Day) returns (filtered: DailyData)
      ensures filtered == FilterFrom(dailyData, Cutoff(timeRange, today))
    {
      var cutoff := Cutoff(timeRange, today);
      filtered := [];
      var i := 0;
      while i < |dailyData|
        invariant 0 <= i <= |dailyData|
        invariant filtered == FilterFrom(dailyData[..i], cutoff)
      {
        var (date, sites) := dailyData[i];
        assert dailyData[..i + 1][..i] == dailyData[..i];
        if date >= cutoff {
          filtered := Put(filtered, date, sites);
        }
        i := i + 1;
      }
      assert dailyData[..i] == dailyData;
    }

    /**
     * `updateStats(filteredData)`: total and productive time over every entry
     * of the filtered days, the number of entries of 25 minutes or more, and the
     * rounded productive percentage.
     */
    method UpdateStats(filtered: DailyData) returns (stats: Stats)
      ensures var es := Flatten(filtered);
        && stats.totalTime == ValuesSum(es)
        && stats.productiveTime == KindTotal(timeData, es, Productive)
        && stats.focusSessions == FocusCount(es)
        && stats.score == Score(stats.productiveTime, stats.totalTime)
      ensures stats.productiveTime <= stats.totalTime && stats.score <= 100
      ensures stats.totalTime == 0 ==> stats.score == 0
      ensures stats.focusSessions * FocusSessionMs <= stats.totalTime
    {
      var totalTime, productiveTime, focusSessions := 0, 0, 0;
      var i := 0;
      while i < |filtered|
        invariant 0 <= i <= |filtered|
        invariant totalTime == ValuesSum(Flatten(filtered[..i]))
        invariant productiveTime == KindTotal(timeData, Flatten(filtered[..i]), Productive)
        invariant focusSessions == FocusCount(Flatten(filtered[..i]))
      {
        var sites := filtered[i].1;
        ghost var seen := Flatten(filtered[..i]);
        var j := 0;
        while j < |sites|
          invariant 0 <= j <= |sites|
          invariant seen == Flatten(filtered[..i]) + sites[..j]
          invariant totalTime == ValuesSum(seen)
          invariant productiveTime == KindTotal(timeData, seen, Productive)
          invariant focusSessions == FocusCount(seen)
        {
          var (domain, time) := sites[j];
          totalTime := totalTime + time;
          if KindOf(timeData, domain) == Some(Productive) {
            productiveTime := productiveTime + time;
          }
          if time >= FocusSessionMs {
            focusSessions := focusSessions + 1;
          }
          PrefixSnoc(sites, j);
          assert (seen + [sites[j]])[..|seen|] == seen;
          seen := seen + [sites[j]];
          j := j + 1;
        }
        assert sites[..j] == sites;
        FlattenSnoc(filtered, i);
        i := i + 1;
      }
      assert filtered[..i] == filtered;
      KindTotalsBound(timeData, Flatten(filtered));
      FocusCountBound(Flatten(filtered));
      stats := Stats(totalTime, productiveTime, focusSessions, Score(productiveTime, totalTime));
    }

    /**
     * `updateWebsitesList()`: per-domain time and visits over all stored days,
     * then the category filter, the sort and the first ten.
     */
    method UpdateWebsitesList() returns (view: SitesView)
      ensures view == WebsitesView(timeData, dailyData, categoryFilter)
    {
      var siteStats: Obj<Domain, SiteStat> := [];
      var i := 0;
      while i < |dailyData|
        invariant 0 <= i <= |dailyData|
        invariant siteStats == SiteStatsOf(Flatten(dailyData[..i]))
      {
        siteStats := AddDayToSiteStats(dailyData[i].1, siteStats);
        FlattenSnoc(dailyData, i);
        SiteStatsIntoAppend([], Flatten(dailyData[..i]), dailyData[i].1);
        i := i + 1;
      }
      assert dailyData[..i] == dailyData;
      var filteredSites := siteStats;
      if categoryFilter != "all" {
        filteredSites := FilterSites(timeData, filteredSites, categoryFilter);
      } else {
        FilterSitesAll(timeData, filteredSites);
      }
      var sorted := SortDesc(filteredSites, SiteTime);
      if |sorted| == 0 {
        return NoWebsitesFound;
      }
      view := Websites(Take(sorted, 10));
    }

    /**
     * `updateDailyChart(type)`: seven points, six days ago first and today last,
     * each the day's minutes (type 'time') or its productivity score.
     */
    method UpdateDailyChart(today: Day, chart: string) returns (data: seq<nat>)
      ensures |data| == 7
      ensures forall k :: 0 <= k < 7 ==> data[k] == DayPoint(timeData, BucketFor(dailyData, today - 6 + k), chart)
      ensures forall k :: 0 <= k < 7 && !Has(dailyData, today - 6 + k) ==> data[k] == 0
      ensures chart != "time" ==> forall k :: 0 <= k < 7 ==> data[k] <= 100
    {
      data := [];
      var i := 6;
      while i >= 0
        invariant -1 <= i <= 6
        invariant |data| == 6 - i
        invariant forall k :: 0 <= k < |data| ==> data[k] == DayPoint(timeData, BucketFor(dailyData, today - 6 + k), chart)
      {
        var dayData := BucketFor(dailyData, today - i);
        var dayTotal, dayProductive := 0, 0;
        var j := 0;
        while j < |dayData|
          invariant 0 <= j <= |dayData|
          invariant dayTotal == ValuesSum(dayData[..j])
          invariant dayProductive == KindTotal(timeData, dayData[..j], Productive)
        {
          var (domain, time) := dayData[j];
          dayTotal := dayTotal + time;
          if KindOf(timeData, domain) == Some(Productive) {
            dayProductive := dayProductive + time;
          }
          PrefixSnoc(dayData, j);
          j := j + 1;
        }
        assert dayData[..j] == dayData;
        var point := if chart == "time" then MinutesRounded(dayTotal) else Score(dayProductive, dayTotal);
        data := data + [point];
        i := i - 1;
      }
      forall k | 0 <= k < 7 ensures (!Has(dailyData, today - 6 + k) ==> data[k] == 0) && (chart != "time" ==> data[k] <= 100) {
        DayPointBounds(timeData, BucketFor(dailyData, today - 6 + k), chart);
      }
    }

    /**
     * `updateCategoryChart(filteredData)`: the filtered time grouped by category
     * label, 'Other' for domains without a record or label, and each group in
     * rounded minutes.
     */
    method UpdateCategoryChart(filtered: DailyData) returns (categories: Obj<string, nat>, labels: seq<string>, data: seq<nat>)
      ensures categories == Group(timeData, ByChartLabel, Flatten(filtered))
      ensures KeysUnique(categories)
      ensures ValuesSum(categories) == ValuesSum(Flatten(filtered))
      ensures forall l :: OrZero(categories, l) == KeyTotal(timeData, ByChartLabel, Flatten(filtered), l)
      ensures |labels| == |data| == |categories|
      ensures forall k :: 0 <= k < |categories| ==> labels[k] == categories[k].0 && data[k] == MinutesRounded(categories[k].1)
    {
      categories := [];
      var i := 0;
      while i < |filtered|
        invariant 0 <= i <= |filtered|
        invariant categories == Group(timeData, ByChartLabel, Flatten(filtered[..i]))
      {
        categories := AddDayToCategoryChart(timeData, filtered[i].1, categories);
        FlattenSnoc(filtered, i);
        GroupIntoAppend(timeData, ByChartLabel, [], Flatten(filtered[..i]), filtered[i].1);
        i := i + 1;
      }
      assert filtered[..i] == filtered;
      var es := Flatten(filtered);
      GroupKeysUnique(timeData, ByChartLabel, es);
      GroupSum(timeData, ByChartLabel, es);
      ChartGroupsEverything(timeData, es);
      forall l ensures OrZero(categories, l) == KeyTotal(timeData, ByChartLabel, es, l) {
        GroupGet(timeData, ByChartLabel, es, l);
      }
      labels := seq(|categories|, k requires 0 <= k < |categories| => categories[k].0);
      data := seq(|categories|, k requires 0 <= k < |categories| => MinutesRounded(categories[k].1));
    }

    /**
     * `calculateInsights()` over all stored days: nothing when no time is
     * recorded; otherwise the site with the most time, the productivity verdict,
     * the peak-time card, and the weekly-pattern card once there are seven days.
     */
    method CalculateInsights() returns (insights: seq<Insight>)
      ensures insights == InsightsOf(timeData, dailyData)
    {
      var totalTime, productiveTime := 0, 0;
      var siteTimes: Obj<Domain, nat> := [];
      var i := 0;
      while i < |dailyData|
        invariant 0 <= i <= |dailyData|
        invariant totalTime == ValuesSum(Flatten(dailyData[..i]))
        invariant productiveTime == KindTotal(timeData, Flatten(dailyData[..i]), Productive)
        invariant siteTimes == Group(timeData, ByDomain, Flatten(dailyData[..i]))
      {
        totalTime, productiveTime, siteTimes := AddDayToInsights(timeData, dailyData[i].1, totalTime, productiveTime, siteTimes);
        FlattenSnoc(dailyData, i);
        ValuesSumConcat(Flatten(dailyData[..i]), dailyData[i].1);
        KindTotalAppend(timeData, Flatten(dailyData[..i]), dailyData[i].1, Productive);
        GroupIntoAppend(timeData, ByDomain, [], Flatten(dailyData[..i]), dailyData[i].1);
        i := i + 1;
      }
      assert dailyData[..i] == dailyData;
      assert InsightsOf(timeData, dailyData) == InsightCards(totalTime, productiveTime, siteTimes, |dailyData|);
      if totalTime == 0 {
        return [];
      }
      var sorted := SortDesc(siteTimes, Amount);
      insights := [];
      if |sorted| > 0 {
        insights := [MostVisitedSite(sorted[0].0, sorted[0].1)];
      }
      var productivityScore := Score(productiveTime, totalTime);
      insights := insights + [ProductivityAnalysis(productivityScore, ScoreMessage(productivityScore))];
      insights := insights + [PeakActivityTime];
      if |dailyData| >= 7 {
        insights := insights + [WeeklyPattern];
      }
    }

    /** `getLastNDaysData(n)` with today as day 0. */
    method GetLastNDaysData(today: Day, n: nat) returns (data: DailyData)
      ensures data == LastNDays(dailyData, today, n)
    {
      data := [];
      var i := 0;
      while i < n
        invariant 0 <= i <= n
        invariant data == LastNDays(dailyData, today, i)
      {
        var date := today - i;
        if Has(dailyData, date) {
          data := Put(data, date, Get(dailyData, date).value);
        }
        i := i + 1;
      }
    }

    /**
     * `createWeeklyReportData()`: totals over the last seven days, the score,
     * the five labels with the most time (only domains with a record are
     * labelled), and the recommendations for that score and total.
     */
    method CreateWeeklyReportData(today: Day) returns (report: WeeklyReport)
      ensures report == WeeklyReportOf(timeData, dailyData, today)
    {
      var last7Days := GetLastNDaysData(today, 7);
      var totalTime, productiveTime := 0, 0;
      var categories: Obj<string, nat> := [];
      var i := 0;
      while i < |last7Days|
        invariant 0 <= i <= |last7Days|
        invariant totalTime == ValuesSum(Flatten(last7Days[..i]))
        invariant productiveTime == KindTotal(timeData, Flatten(last7Days[..i]), Productive)
        invariant categories == Group(timeData, ByRecordLabel, Flatten(last7Days[..i]))
      {
        totalTime, productiveTime, categories := AddDayToReport(timeData, last7Days[i].1, totalTime, productiveTime, categories);
        FlattenSnoc(last7Days, i);
        ValuesSumConcat(Flatten(last7Days[..i]), last7Days[i].1);
        KindTotalAppend(timeData, Flatten(last7Days[..i]), last7Days[i].1, Productive);
        GroupIntoAppend(timeData, ByRecordLabel, [], Flatten(last7Days[..i]), last7Days[i].1);
        i := i + 1;
      }
      assert last7Days[..i] == last7Days;
      var productivityScore := Score(productiveTime, totalTime);
      var topCategories := Take(SortDesc(categories, Amount), 5);
      var recommendations := Recommendations(productivityScore, totalTime);
      report := WeeklyReport(totalTime, productiveTime, productivityScore, topCategories, recommendations);
    }
  }
}
