/**
 * The two persisted documents, `timeData` (domain -> record) and `dailyData`
 * (day -> domain -> milliseconds), and what `saveTimeData` does to them
 * (background.js).
 */
module Storage {
  import opened Wrappers
  import opened JsObject
  import opened Category

  type Domain = string

  /**
   * A calendar day, numbered from the epoch. The source keys days by
   * `new Date().toDateString()`; distinct days give distinct keys.
   */
  type Day = int

  datatype DomainRecord = DomainRecord(
    totalTime: nat,         // milliseconds over all saved sessions
    visits: nat,            // number of saved sessions
    lastVisit: nat,         // Date.now() of the last save
    title: Option<string>,  // undefined when the tab had no title
    category: Category)

  type TimeData = Obj<Domain, DomainRecord>
  type Bucket = Obj<Domain, nat>
  type DailyData = Obj<Day, Bucket>

  /** What a JSON object can hold: distinct property names at every level. */
  predicate WellFormed(td: TimeData, dd: DailyData) {
    && KeysUnique(td)
    && KeysUnique(dd)
    && forall i :: 0 <= i < |dd| ==> KeysUnique(dd[i].1)
  }

  /** `if (title)`: a title is used only when it is a non-empty string. */
  predicate Truthy(title: Option<string>) {
    title.Some? && title.value != ""
  }

  /** `bucket[domain] || 0`. */
  function TimeOn(b: Bucket, d: Domain): nat {
    OrZero(b, d)
  }

  /** `dailyData[day] || {}`. */
  function BucketFor(dd: DailyData, day: Day): Bucket {
    Get(dd, day).GetOr([])
  }

  function RecordTotal(td: TimeData, d: Domain): nat {
    match Get(td, d)
    case None => 0
    case Some(r) => r.totalTime
  }

  function RecordVisits(td: TimeData, d: Domain): nat {
    match Get(td, d)
    case None => 0
    case Some(r) => r.visits
  }

  /** A record as first created: zero time and visits, classified once, here. */
  function NewRecord(domain: Domain, title: Option<string>, now: nat): DomainRecord {
    DomainRecord(0, 0, now, title, Categorize(domain))
  }

  /** The record for `domain` after one saved session. */
  function SavedRecord(old_: Option<DomainRecord>, domain: Domain, timeSpent: nat, title: Option<string>, now: nat): DomainRecord {
    var base := old_.GetOr(NewRecord(domain, title, now));
    base.(totalTime := base.totalTime + timeSpent,
          visits := base.visits + 1,
          lastVisit := now,
          title := if Truthy(title) then title else base.title)
  }

  function SavedTimeData(td: TimeData, domain: Domain, timeSpent: nat, title: Option<string>, now: nat): TimeData {
    Put(td, domain, SavedRecord(Get(td, domain), domain, timeSpent, title, now))
  }

  function SavedDailyData(dd: DailyData, today: Day, domain: Domain, timeSpent: nat): DailyData {
    var b := BucketFor(dd, today);
    var v: nat := TimeOn(b, domain) + timeSpent;
    Put(dd, today, Put(b, domain, v))
  }

  /** The record written by a save: time and visits go up, the category is the one it was created with. */
  lemma SavedTimeDataRecord(td: TimeData, domain: Domain, timeSpent: nat, title: Option<string>, now: nat)
    ensures var r := Get(SavedTimeData(td, domain, timeSpent, title, now), domain);
      && r.Some?
      && r.value.totalTime == RecordTotal(td, domain) + timeSpent
      && r.value.visits == RecordVisits(td, domain) + 1
      && r.value.lastVisit == now
      && r.value.category == (if Has(td, domain) then Get(td, domain).value.category else Categorize(domain))
      && r.value.title == (if Truthy(title) || !Has(td, domain) then title else Get(td, domain).value.title)
  {
    GetPut(td, domain, SavedRecord(Get(td, domain), domain, timeSpent, title, now), domain);
  }

  /** Every other domain's record is unchanged and keeps its place among the records. */
  lemma SavedTimeDataOthers(td: TimeData, domain: Domain, timeSpent: nat, title: Option<string>, now: nat, q: Domain)
    requires q != domain
    ensures Get(SavedTimeData(td, domain, timeSpent, title, now), q) == Get(td, q)
    ensures RecordTotal(SavedTimeData(td, domain, timeSpent, title, now), q) == RecordTotal(td, q)
    ensures IndexOf(SavedTimeData(td, domain, timeSpent, title, now), q) == IndexOf(td, q)
  {
    GetPut(td, domain, SavedRecord(Get(td, domain), domain, timeSpent, title, now), q);
    IndexOfPut(td, domain, SavedRecord(Get(td, domain), domain, timeSpent, title, now), q);
  }

  /** Today's entry for the domain goes up by the session; other entries and other days are unchanged. */
  lemma SavedDailyDataEntries(dd: DailyData, today: Day, domain: Domain, timeSpent: nat, day: Day, q: Domain)
    ensures TimeOn(BucketFor(SavedDailyData(dd, today, domain, timeSpent), today), domain)
         == TimeOn(BucketFor(dd, today), domain) + timeSpent
    ensures q != domain ==>
      Get(BucketFor(SavedDailyData(dd, today, domain, timeSpent), today), q) == Get(BucketFor(dd, today), q)
    ensures day != today ==> Get(SavedDailyData(dd, today, domain, timeSpent), day) == Get(dd, day)
  {
    var b := BucketFor(dd, today);
    var v: nat := TimeOn(b, domain) + timeSpent;
    var b' := Put(b, domain, v);
    GetPut(dd, today, b', today);
    GetPut(dd, today, b', day);
    GetPut(b, domain, v, domain);
    GetPut(b, domain, v, q);
  }

  lemma SavedWellFormed(td: TimeData, dd: DailyData, domain: Domain, timeSpent: nat, title: Option<string>, today: Day, now: nat)
    requires WellFormed(td, dd)
    ensures WellFormed(SavedTimeData(td, domain, timeSpent, title, now), SavedDailyData(dd, today, domain, timeSpent))
  {
    PutKeysUnique(td, domain, SavedRecord(Get(td, domain), domain, timeSpent, title, now));
    var b := BucketFor(dd, today);
    var v: nat := TimeOn(b, domain) + timeSpent;
    var b' := Put(b, domain, v);
    assert KeysUnique(b) by {
      var i := IndexOf(dd, today);
      if i >= 0 { assert b == dd[i].1; }
    }
    PutKeysUnique(b, domain, v);
    PutKeysUnique(dd, today, b');
    var dd' := Put(dd, today, b');
    forall i | 0 <= i < |dd'| ensures KeysUnique(dd'[i].1) {
      var j := IndexOf(dd, today);
      if j < 0 {
        if i < |dd| { assert dd'[i] == dd[i]; } else { assert dd'[i].1 == b'; }
      } else {
        if i != j { assert dd'[i] == dd[i]; } else { assert dd'[i].1 == b'; }
      }
    }
  }

  /** Milliseconds recorded for domain d over all days: `sum over days of dailyData[day][d]`. */
  function DomainTotal(dd: DailyData, d: Domain): nat {
    if dd == [] then 0 else DomainTotal(dd[..|dd| - 1], d) + TimeOn(dd[|dd| - 1].1, d)
  }

  /**
   * The cross-consistency of the two documents: every domain's record total is
   * the sum of its daily entries, and a domain without a record has no time.
   */
  ghost predicate Consistent(td: TimeData, dd: DailyData) {
    forall d :: RecordTotal(td, d) == DomainTotal(dd, d)
  }

  lemma {:induction false} DomainTotalUpdate(dd: DailyData, i: nat, e: (Day, Bucket), d: Domain)
    requires i < |dd|
    ensures DomainTotal(dd[i := e], d) == DomainTotal(dd, d) - TimeOn(dd[i].1, d) + TimeOn(e.1, d)
    decreases |dd|
  {
    var n := |dd| - 1;
    if i == n {
      assert dd[i := e][..n] == dd[..n];
    } else {
      assert dd[i := e][..n] == dd[..n][i := e];
      DomainTotalUpdate(dd[..n], i, e, d);
    }
  }

  /** Replacing one day's bucket changes a domain's total by the change in that bucket. */
  lemma DomainTotalPut(dd: DailyData, day: Day, b: Bucket, d: Domain)
    ensures DomainTotal(Put(dd, day, b), d) == DomainTotal(dd, d) - TimeOn(BucketFor(dd, day), d) + TimeOn(b, d)
  {
    var i := IndexOf(dd, day);
    if i < 0 {
      var e := (day, b);
      assert (dd + [e])[..|dd|] == dd;
    } else {
      DomainTotalUpdate(dd, i, (day, b), d);
    }
  }

  /** A save adds the session to the domain's total over days, and nothing to any other domain. */
  lemma SavedDailyDataTotal(dd: DailyData, today: Day, domain: Domain, timeSpent: nat, d: Domain)
    ensures DomainTotal(SavedDailyData(dd, today, domain, timeSpent), d)
         == DomainTotal(dd, d) + (if d == domain then timeSpent else 0)
  {
    var b := BucketFor(dd, today);
    var v: nat := TimeOn(b, domain) + timeSpent;
    TimeOnPut(b, domain, v, d);
    DomainTotalPut(dd, today, Put(b, domain, v), d);
  }

  lemma TimeOnPut(b: Bucket, domain: Domain, v: nat, d: Domain)
    ensures TimeOn(Put(b, domain, v), d) == if d == domain then v else TimeOn(b, d)
  {
    GetPut(b, domain, v, d);
  }

  lemma SavedTimeDataTotal(td: TimeData, domain: Domain, timeSpent: nat, title: Option<string>, now: nat, d: Domain)
    ensures RecordTotal(SavedTimeData(td, domain, timeSpent, title, now), d)
         == RecordTotal(td, d) + (if d == domain then timeSpent else 0)
    ensures RecordVisits(SavedTimeData(td, domain, timeSpent, title, now), d)
         == RecordVisits(td, d) + (if d == domain then 1 else 0)
  {
    GetPut(td, domain, SavedRecord(Get(td, domain), domain, timeSpent, title, now), d);
  }

  /** `saveTimeData` keeps the per-domain totals equal to the sums of the daily buckets. */
  lemma SavePreservesConsistency(td: TimeData, dd: DailyData, domain: Domain, timeSpent: nat, title: Option<string>, today: Day, now: nat)
    requires Consistent(td, dd)
    ensures Consistent(SavedTimeData(td, domain, timeSpent, title, now), SavedDailyData(dd, today, domain, timeSpent))
  {
    forall d ensures RecordTotal(SavedTimeData(td, domain, timeSpent, title, now), d)
                  == DomainTotal(SavedDailyData(dd, today, domain, timeSpent), d) {
      SavedTimeDataTotal(td, domain, timeSpent, title, now, d);
      SavedDailyDataTotal(dd, today, domain, timeSpent, d);
    }
  }

  /** One session handed to `saveTimeData`. */
  datatype SavedSession = SavedSession(domain: Domain, timeSpent: nat, title: Option<string>, day: Day, at: nat)

  /** Storage after a sequence of saves, oldest first. */
  function Replay(td: TimeData, dd: DailyData, log: seq<SavedSession>): (TimeData, DailyData) {
    if log == [] then (td, dd)
    else
      var (td0, dd0) := Replay(td, dd, log[..|log| - 1]);
      var s := log[|log| - 1];
      (SavedTimeData(td0, s.domain, s.timeSpent, s.title, s.at), SavedDailyData(dd0, s.day, s.domain, s.timeSpent))
  }

  function SessionCount(log: seq<SavedSession>, d: Domain): nat {
    if log == [] then 0 else SessionCount(log[..|log| - 1], d) + (if log[|log| - 1].domain == d then 1 else 0)
  }

  function SessionTime(log: seq<SavedSession>, d: Domain): nat {
    if log == [] then 0 else SessionTime(log[..|log| - 1], d) + (if log[|log| - 1].domain == d then log[|log| - 1].timeSpent else 0)
  }

  /**
   * From empty storage, after any sequence of saves, each domain's visits is the
   * number of its saved sessions, its total is their sum, and the two documents
   * are consistent.
   */
  lemma {:induction false} ReplayFromEmpty(log: seq<SavedSession>, d: Domain)
    ensures var (td, dd) := Replay([], [], log);
      && RecordVisits(td, d) == SessionCount(log, d)
      && RecordTotal(td, d) == SessionTime(log, d)
      && DomainTotal(dd, d) == SessionTime(log, d)
  {
    if log != [] {
      var (td0, dd0) := Replay([], [], log[..|log| - 1]);
      var s := log[|log| - 1];
      ReplayFromEmpty(log[..|log| - 1], d);
      SavedTimeDataTotal(td0, s.domain, s.timeSpent, s.title, s.at, d);
      SavedDailyDataTotal(dd0, s.day, s.domain, s.timeSpent, d);
    }
  }
}
