/**
 * The toolbar popup (popup.js, `PopupManager`): today's summary figures and top
 * sites, the current-site line and the current-session timer.
 */
module Popup {
  import opened Wrappers
  import opened JsObject
  import opened Category
  import opened Storage
  import opened Aggregate
  import opened Decimal
  import opened Format
  import opened Hostnames
  import opened Tracker

  /** What `displaySummaryStats` computes and writes into the page. */
  datatype Summary = Summary(
    totalTime: nat,
    productiveTime: nat,
    unproductiveTime: nat,
    score: nat,
    productiveText: string,
    unproductiveText: string,
    scoreText: string)

  /**
   * `displaySummaryStats(todayData, timeData)`: one pass over today's entries
   * adding every entry to the total and, by its record's type, to the productive
   * or the unproductive time; neutral entries and entries without a record add
   * to the total only. The score is the rounded productive percentage.
   */
  method DisplaySummaryStats(todayData: Bucket, timeData: TimeData) returns (s: Summary)
    ensures s.totalTime == ValuesSum(todayData)
    ensures s.productiveTime == KindTotal(timeData, todayData, Productive)
    ensures s.unproductiveTime == KindTotal(timeData, todayData, Unproductive)
    ensures s.productiveTime + s.unproductiveTime <= s.totalTime
    ensures s.totalTime - s.productiveTime - s.unproductiveTime == OtherTotal(timeData, todayData)
    ensures s.score == Score(s.productiveTime, s.totalTime) && s.score <= 100
    ensures s.totalTime == 0 ==> s.score == 0
    ensures s.productiveText == FormatTime(s.productiveTime) && s.unproductiveText == FormatTime(s.unproductiveTime)
    ensures s.scoreText == NatToString(s.score) + "%"
  {
    var productiveTime, unproductiveTime, totalTime := 0, 0, 0;
    var j := 0;
    while j < |todayData|
      invariant 0 <= j <= |todayData|
      invariant totalTime == ValuesSum(todayData[..j])
      invariant productiveTime == KindTotal(timeData, todayData[..j], Productive)
      invariant unproductiveTime == KindTotal(timeData, todayData[..j], Unproductive)
    {
      var entry: Entry := todayData[j];
      var (domain, time) := entry;
      totalTime := totalTime + time;
      var kind := KindOf(timeData, domain);
      if kind == Some(Productive) {
        productiveTime := productiveTime + time;
      } else if kind == Some(Unproductive) {
        unproductiveTime := unproductiveTime + time;
      }
      PrefixSnoc(todayData, j);
      j := j + 1;
    }
    assert todayData[..j] == todayData;
    KindTotalsSplit(timeData, todayData);
    var score := Score(productiveTime, totalTime);
    s := Summary(totalTime, productiveTime, unproductiveTime, score,
                 FormatTime(productiveTime), FormatTime(unproductiveTime), NatToString(score) + "%");
  }

  /** One row of the top-sites list: the domain, its time, and what the row shows. */
  datatype SiteRow = SiteRow(domain: Domain, time: nat, name: string, typeName: string, categoryName: string, timeText: string)

  datatype TopSitesView = NoActivityToday | TopSites(rows: seq<SiteRow>)

  /** `(timeData[domain] || {}).category || { type: 'neutral', category: 'Other' }`. */
  function RowCategory(td: TimeData, d: Domain): Category {
    match Get(td, d)
    case None => Category(Neutral, OtherLabel)
    case Some(r) => r.category
  }

  function Row(td: TimeData, e: Entry): SiteRow {
    var c := RowCategory(td, e.0);
    SiteRow(e.0, e.1, FormatDomain(e.0), TypeName(c.kind), c.name, FormatTime(e.1))
  }

  /** The entry a row was made from. */
  function RowEntry(r: SiteRow): Entry {
    (r.domain, r.time)
  }

  /** `sortedSites.map(([domain, time]) => ...)`. */
  function Rows(td: TimeData, es: seq<Entry>): (rows: seq<SiteRow>)
    ensures |rows| == |es|
    ensures forall i :: 0 <= i < |es| ==> rows[i] == Row(td, es[i]) && RowEntry(rows[i]) == es[i]
  {
    seq(|es|, i requires 0 <= i < |es| => Row(td, es[i]))
  }

  /** `displayTopSites(todayData, timeData)`: today's entries largest first, the first five, one row each. */
  function DisplayTopSites(todayData: Bucket, timeData: TimeData): TopSitesView {
    var sortedSites := Take(SortDesc(todayData, Amount), 5);
    if |sortedSites| == 0 then NoActivityToday else TopSites(Rows(timeData, sortedSites))
  }

  /** An entry of today's bucket without a row has no more time than the row at i. */
  lemma TopSitesLeftOut(todayData: Bucket, timeData: TimeData, e: Entry, i: nat)
    requires DisplayTopSites(todayData, timeData).TopSites?
    requires var rows := DisplayTopSites(todayData, timeData).rows;
      e in todayData && (forall k :: 0 <= k < |rows| ==> RowEntry(rows[k]) != e) && i < |rows|
    ensures e.1 <= DisplayTopSites(todayData, timeData).rows[i].time
  {
    var shown := Take(SortDesc(todayData, Amount), 5);
    var rows := Rows(timeData, shown);
    assert e !in shown by {
      forall k | 0 <= k < |shown| ensures shown[k] != e {
        assert RowEntry(rows[k]) == shown[k];
      }
    }
    assert shown[i] in shown;
    TopNLeftOut(todayData, Amount, 5, e, shown[i]);
    assert RowEntry(rows[i]) == shown[i];
  }

  /** The rows shown: min(5, entries) of them, largest time first, each made from an entry of the bucket. */
  lemma TopSitesRows(todayData: Bucket, timeData: TimeData)
    requires DisplayTopSites(todayData, timeData).TopSites?
    ensures var rows := DisplayTopSites(todayData, timeData).rows;
      && |rows| == (if |todayData| < 5 then |todayData| else 5)
      && (forall i, j :: 0 <= i < j < |rows| ==> rows[i].time >= rows[j].time)
      && (forall i :: 0 <= i < |rows| ==> RowEntry(rows[i]) in todayData && rows[i] == Row(timeData, RowEntry(rows[i])))
  {
    var shown := Take(SortDesc(todayData, Amount), 5);
    TopN(todayData, Amount, 5);
    var rows := Rows(timeData, shown);
    assert forall i :: 0 <= i < |rows| ==> shown[i] in shown;
  }

  /**
   * "No activity today" exactly when today's bucket is empty; otherwise up to
   * five rows, one per entry of the bucket, largest time first, and no entry
   * left out has more time than a row shown.
   */
  lemma TopSitesShape(todayData: Bucket, timeData: TimeData)
    ensures DisplayTopSites(todayData, timeData).NoActivityToday? <==> |todayData| == 0
    ensures DisplayTopSites(todayData, timeData).TopSites? ==>
      var rows := DisplayTopSites(todayData, timeData).rows;
      && |rows| == (if |todayData| < 5 then |todayData| else 5)
      && (forall i, j :: 0 <= i < j < |rows| ==> rows[i].time >= rows[j].time)
      && (forall i :: 0 <= i < |rows| ==> RowEntry(rows[i]) in todayData && rows[i] == Row(timeData, RowEntry(rows[i])))
      && (forall e, i :: e in todayData && (forall k :: 0 <= k < |rows| ==> RowEntry(rows[k]) != e) && 0 <= i < |rows| ==>
            e.1 <= rows[i].time)
  {
    TopN(todayData, Amount, 5);
    if DisplayTopSites(todayData, timeData).TopSites? {
      TopSitesRows(todayData, timeData);
      var rows := DisplayTopSites(todayData, timeData).rows;
      forall e, i | e in todayData && (forall k :: 0 <= k < |rows| ==> RowEntry(rows[k]) != e) && 0 <= i < |rows|
        ensures e.1 <= rows[i].time
      {
        TopSitesLeftOut(todayData, timeData, e, i);
      }
    }
  }

  /**
   * `loadTodayData()`: today's bucket (`dailyData?.[today] || {}`) and the
   * records (`timeData || {}`) as read from storage, summarised and listed.
   */
  method LoadTodayData(storedDailyData: Option<DailyData>, storedTimeData: Option<TimeData>, today: Day)
    returns (summary: Summary, topSites: TopSitesView)
    ensures var todayData := BucketFor(storedDailyData.GetOr([]), today); var timeData := storedTimeData.GetOr([]);
      && summary.totalTime == ValuesSum(todayData)
      && summary.productiveTime == KindTotal(timeData, todayData, Productive)
      && summary.unproductiveTime == KindTotal(timeData, todayData, Unproductive)
      && summary.score == Score(summary.productiveTime, summary.totalTime)
      && topSites == DisplayTopSites(todayData, timeData)
  {
    var todayData := BucketFor(storedDailyData.GetOr([]), today);
    var timeData := storedTimeData.GetOr([]);
    summary := DisplaySummaryStats(todayData, timeData);
    topSites := DisplayTopSites(todayData, timeData);
  }

  /** The outcome of `chrome.tabs.query({ active: true, currentWindow: true })`. */
  datatype TabQuery = QueryFailed | QueryResult(tabs: seq<Tab>)

  /**
   * The current-site line: 'Unknown' when the query fails, 'No active site'
   * without a first tab, without a URL or on a `chrome://` page, and the
   * formatted domain otherwise.
   */
  function CurrentSiteText(q: TabQuery, parse: UrlParser): (text: string)
    ensures q.QueryFailed? ==> text == "Unknown"
    ensures q.QueryResult? && (|q.tabs| == 0 || !Trackable(q.tabs[0].url)) ==> text == "No active site"
    ensures q.QueryResult? && |q.tabs| > 0 && Trackable(q.tabs[0].url) ==>
      text == FormatDomain(ExtractDomain(q.tabs[0].url, parse(q.tabs[0].url)))
  {
    match q
    case QueryFailed => "Unknown"
    case QueryResult(tabs) =>
      if |tabs| > 0 && Trackable(tabs[0].url) then
        FormatDomain(ExtractDomain(tabs[0].url, parse(tabs[0].url)))
      else "No active site"
  }

  /** An internal page never shows a domain. */
  lemma CurrentSiteChrome(rest: string, title: Option<string>, others: seq<Tab>, parse: UrlParser)
    ensures CurrentSiteText(QueryResult([Tab("chrome://" + rest, title)] + others), parse) == "No active site"
  {
    var url := "chrome://" + rest;
    assert url[..9] == "chrome://";
    assert !Trackable(url);
  }

  /** A leading "www." is dropped and the name is cut at the first dot. */
  lemma CurrentSiteExample(parse: UrlParser, title: Option<string>)
    requires parse("https://www.github.com/") == Some("www.github.com")
    ensures CurrentSiteText(QueryResult([Tab("https://www.github.com/", title)]), parse) == "Github"
  {
    var url := "https://www.github.com/";
    assert !StartsWith(url, "chrome://") by { assert url[..9] != "chrome://" by { assert url[0] != 'c'; } }
    assert Www + "github.com" == "www.github.com";
    ExtractDomainLeadingWww(url, "github.com");
    FormatDomainExample();
  }

  /** The session timer of `startCurrentSessionTimer`: `sessionSeconds` and its once-a-second update. */
  class SessionTimer {
    var sessionSeconds: nat

    constructor ()
      ensures sessionSeconds == 0
    {
      sessionSeconds := 0;
    }

    /** One interval tick: `sessionSeconds++` and the new `m:ss` text. */
    method Tick() returns (text: string)
      modifies this
      ensures sessionSeconds == old(sessionSeconds) + 1
      ensures text == TimerText(sessionSeconds)
    {
      sessionSeconds := sessionSeconds + 1;
      text := TimerText(sessionSeconds);
    }
  }
}
