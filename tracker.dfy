/**
 * The session tracker of background.js (`TimeTracker`): at most one open
 * session (`currentTab`, `startTime`, `isTracking`), closed on every focus
 * change and written to storage when it lasted more than a second.
 */
module Tracker {
  import opened Wrappers
  import opened JsObject
  import opened Hostnames
  import opened Storage

  /** The parts of a `chrome.tabs.Tab` the tracker reads; an absent URL is "". */
  datatype Tab = Tab(url: string, title: Option<string>)

  type TabId = nat

  /** `new URL(url).hostname`, None when the constructor throws. */
  type UrlParser = string -> Option<string>

  /** What `chrome.windows.onFocusChanged` reports, with the active tab of the focused window. */
  datatype WindowFocus = NoWindowFocused | WindowFocused(activeTab: Option<TabId>)

  /** The tracker's three fields together with the two storage documents. */
  datatype TrackerState = TrackerState(
    currentTab: Option<Tab>,
    startTime: Option<nat>,
    isTracking: bool,
    timeData: TimeData,
    dailyData: DailyData)

  /** Sessions of this many milliseconds or fewer are dropped. */
  const MinSessionMs := 1000

  predicate Idle(s: TrackerState) {
    !s.isTracking && s.currentTab.None? && s.startTime.None?
  }

  predicate Tracking(s: TrackerState) {
    s.isTracking && s.currentTab.Some? && s.startTime.Some?
  }

  /** The tracker is idle or fully tracking, and storage is well-formed JSON. */
  predicate Invariant(s: TrackerState) {
    (Idle(s) || Tracking(s)) && WellFormed(s.timeData, s.dailyData)
  }

  /** stopTracking's guard passes: tracking, with a tab and a truthy (non-zero) start time. */
  predicate SessionOpen(s: TrackerState) {
    s.isTracking && s.currentTab.Some? && s.startTime.Some? && s.startTime.value != 0
  }

  /** `startTracking(tab)` at time now. */
  function StartSpec(s: TrackerState, tab: Tab, now: nat): TrackerState {
    s.(currentTab := Some(tab), startTime := Some(now), isTracking := true)
  }

  /**
   * `stopTracking()` on calendar day today. It reads the clock twice: the end of
   * the session at stopAt, and, in `saveTimeData` after the storage read, the
   * record's `lastVisit` at savedAt.
   */
  function StopSpec(s: TrackerState, stopAt: nat, savedAt: nat, today: Day, parse: UrlParser): TrackerState {
    if !SessionOpen(s) then s
    else
      var tab := s.currentTab.value;
      var timeSpent := stopAt - s.startTime.value;
      var domain := ExtractDomain(tab.url, parse(tab.url));
      var stored :=
        if timeSpent > MinSessionMs then
          s.(timeData := SavedTimeData(s.timeData, domain, timeSpent, tab.title, savedAt),
             dailyData := SavedDailyData(s.dailyData, today, domain, timeSpent))
        else s;
      stored.(isTracking := false, currentTab := None, startTime := None)
  }

  /**
   * `handleTabChange(tabId)`, run as stop-then-start; `tabs` is what
   * `chrome.tabs.get` can resolve. The new session starts at startAt, read in
   * the `chrome.tabs.get` callback after the old one was stored.
   */
  function HandleTabChangeSpec(s: TrackerState, tabId: TabId, tabs: map<TabId, Tab>,
                               stopAt: nat, savedAt: nat, startAt: nat, today: Day, parse: UrlParser): TrackerState {
    var stopped := StopSpec(s, stopAt, savedAt, today, parse);
    if tabId in tabs && Trackable(tabs[tabId].url) then StartSpec(stopped, tabs[tabId], startAt) else stopped
  }

  function SessionDomain(s: TrackerState, parse: UrlParser): Domain
    requires s.currentTab.Some?
  {
    ExtractDomain(s.currentTab.value.url, parse(s.currentTab.value.url))
  }

  /**
   * What stopTracking promises: nothing changes unless a session is open; an open
   * session always ends in the idle state; its time is stored, once, exactly when
   * it lasted more than a second.
   */
  lemma StopSpecEffect(s: TrackerState, stopAt: nat, savedAt: nat, today: Day, parse: UrlParser)
    ensures !SessionOpen(s) ==> StopSpec(s, stopAt, savedAt, today, parse) == s
    ensures SessionOpen(s) ==> Idle(StopSpec(s, stopAt, savedAt, today, parse))
    ensures SessionOpen(s) && stopAt - s.startTime.value <= MinSessionMs ==>
      StopSpec(s, stopAt, savedAt, today, parse).timeData == s.timeData &&
      StopSpec(s, stopAt, savedAt, today, parse).dailyData == s.dailyData
    ensures SessionOpen(s) && stopAt - s.startTime.value > MinSessionMs ==>
      var t := stopAt - s.startTime.value;
      var d := SessionDomain(s, parse);
      StopSpec(s, stopAt, savedAt, today, parse).timeData == SavedTimeData(s.timeData, d, t, s.currentTab.value.title, savedAt) &&
      StopSpec(s, stopAt, savedAt, today, parse).dailyData == SavedDailyData(s.dailyData, today, d, t)
  {
  }

  /** stopTracking keeps the state invariant and the cross-consistency of storage. */
  lemma StopPreserves(s: TrackerState, stopAt: nat, savedAt: nat, today: Day, parse: UrlParser)
    requires Invariant(s)
    ensures Invariant(StopSpec(s, stopAt, savedAt, today, parse))
    ensures Consistent(s.timeData, s.dailyData) ==>
      var r := StopSpec(s, stopAt, savedAt, today, parse); Consistent(r.timeData, r.dailyData)
  {
    if SessionOpen(s) && stopAt - s.startTime.value > MinSessionMs {
      var t := stopAt - s.startTime.value;
      var d := SessionDomain(s, parse);
      var title := s.currentTab.value.title;
      SavedWellFormed(s.timeData, s.dailyData, d, t, title, today, savedAt);
      if Consistent(s.timeData, s.dailyData) {
        SavePreservesConsistency(s.timeData, s.dailyData, d, t, title, today, savedAt);
      }
    }
  }

  /** A tab change closes the old session and leaves the tracker tracking the new tab exactly when it is trackable. */
  lemma HandleTabChangePreserves(s: TrackerState, tabId: TabId, tabs: map<TabId, Tab>,
                                 stopAt: nat, savedAt: nat, startAt: nat, today: Day, parse: UrlParser)
    requires Invariant(s)
    ensures var r := HandleTabChangeSpec(s, tabId, tabs, stopAt, savedAt, startAt, today, parse);
      && Invariant(r)
      && (Consistent(s.timeData, s.dailyData) ==> Consistent(r.timeData, r.dailyData))
      && (tabId in tabs && Trackable(tabs[tabId].url) ==>
            Tracking(r) && r.currentTab == Some(tabs[tabId]) && r.startTime == Some(startAt))
      && (SessionOpen(s) && !(tabId in tabs && Trackable(tabs[tabId].url)) ==> Idle(r))
  {
    StopPreserves(s, stopAt, savedAt, today, parse);
  }

  class TimeTracker {
    var currentTab: Option<Tab>
    var startTime: Option<nat>
    var isTracking: bool
    /** The contents of `chrome.storage.local`: the `timeData` and `dailyData` keys. */
    var timeData: TimeData
    var dailyData: DailyData
    const parse: UrlParser

    function State(): TrackerState
      reads this
    {
      TrackerState(currentTab, startTime, isTracking, timeData, dailyData)
    }

    ghost predicate Valid()
      reads this
    {
      Invariant(State())
    }

    constructor (parse: UrlParser, timeData: TimeData, dailyData: DailyData)
      requires WellFormed(timeData, dailyData)
      ensures Valid() && this.parse == parse
      ensures State() == TrackerState(None, None, false, timeData, dailyData)
    {
      this.parse := parse;
      this.timeData := timeData;
      this.dailyData := dailyData;
      currentTab := None;
      startTime := None;
      isTracking := false;
    }

    method StartTracking(tab: Tab, now: nat)
      requires Valid()
      modifies this
      ensures Valid()
      ensures State() == StartSpec(old(State()), tab, now)
    {
      currentTab := Some(tab);
      startTime := Some(now);
      isTracking := true;
    }

    method StopTracking(stopAt: nat, savedAt: nat, today: Day)
      requires Valid()
      modifies this
      ensures Valid()
      ensures State() == StopSpec(old(State()), stopAt, savedAt, today, parse)
    {
      StopPreserves(State(), stopAt, savedAt, today, parse);
      if !isTracking || currentTab.None? || startTime.None? || startTime.value == 0 {
        return;
      }
      var endTime := stopAt;
      var timeSpent := endTime - startTime.value;
      var domain := ExtractDomain(currentTab.value.url, parse(currentTab.value.url));
      if timeSpent > MinSessionMs {
        SaveTimeData(domain, timeSpent, currentTab.value.title, today, savedAt);
      }
      isTracking := false;
      currentTab := None;
      startTime := None;
    }

    /**
     * `saveTimeData`: a read-modify-write of both documents. The source does it
     * in one function; its two halves are separate methods here.
     */
    method SaveTimeData(domain: Domain, timeSpent: nat, title: Option<string>, today: Day, now: nat)
      modifies this`timeData, this`dailyData
      ensures timeData == SavedTimeData(old(timeData), domain, timeSpent, title, now)
      ensures dailyData == SavedDailyData(old(dailyData), today, domain, timeSpent)
    {
      AddToRecord(domain, timeSpent, title, now);
      AddToDailyBucket(domain, timeSpent, today);
    }

    /** The `timeData` half of `saveTimeData`: create the record if missing, then update it in place. */
    method AddToRecord(domain: Domain, timeSpent: nat, title: Option<string>, now: nat)
      modifies this`timeData
      ensures timeData == SavedTimeData(old(timeData), domain, timeSpent, title, now)
    {
      var td := timeData;
      if !Has(td, domain) {
        PutHas(td, domain, NewRecord(domain, title, now), domain);
        td := Put(td, domain, NewRecord(domain, title, now));
      }
      var rec := Get(td, domain).value;
      rec := rec.(totalTime := rec.totalTime + timeSpent, visits := rec.visits + 1, lastVisit := now);
      if Truthy(title) {
        rec := rec.(title := title);
      }
      DefaultThenPut(timeData, td, domain, NewRecord(domain, title, now), rec);
      timeData := Put(td, domain, rec);
    }

    /** The `dailyData` half of `saveTimeData`: create today's bucket and entry at 0 if missing, then add. */
    method AddToDailyBucket(domain: Domain, timeSpent: nat, today: Day)
      modifies this`dailyData
      ensures dailyData == SavedDailyData(old(dailyData), today, domain, timeSpent)
    {
      var dd := dailyData;
      if !Has(dd, today) {
        PutHas(dd, today, [], today);
        dd := Put(dd, today, []);
      }
      var bucket := Get(dd, today).value;
      ghost var b0 := bucket;
      if !Has(bucket, domain) || Get(bucket, domain).value == 0 {
        PutHas(bucket, domain, 0, domain);
        bucket := Put(bucket, domain, 0);
      }
      var current: nat := Get(bucket, domain).value;
      var entry: nat := current + timeSpent;
      DefaultThenPut(b0, bucket, domain, 0, entry);
      bucket := Put(bucket, domain, entry);
      DefaultThenPut(dailyData, dd, today, [], bucket);
      dailyData := Put(dd, today, bucket);
    }

    method HandleTabChange(tabId: TabId, tabs: map<TabId, Tab>, stopAt: nat, savedAt: nat, startAt: nat, today: Day)
      requires Valid()
      modifies this
      ensures Valid()
      ensures State() == HandleTabChangeSpec(old(State()), tabId, tabs, stopAt, savedAt, startAt, today, parse)
    {
      StopTracking(stopAt, savedAt, today);
      if tabId in tabs && Trackable(tabs[tabId].url) {
        StartTracking(tabs[tabId], startAt);
      }
    }

    /** `chrome.tabs.onActivated`. */
    method OnActivated(tabId: TabId, tabs: map<TabId, Tab>, stopAt: nat, savedAt: nat, startAt: nat, today: Day)
      requires Valid()
      modifies this
      ensures Valid()
      ensures State() == HandleTabChangeSpec(old(State()), tabId, tabs, stopAt, savedAt, startAt, today, parse)
    {
      HandleTabChange(tabId, tabs, stopAt, savedAt, startAt, today);
    }

    /** `chrome.tabs.onUpdated`: only a completed load in the active tab counts as a change. */
    method OnUpdated(tabId: TabId, complete: bool, active: bool, tabs: map<TabId, Tab>,
                     stopAt: nat, savedAt: nat, startAt: nat, today: Day)
      requires Valid()
      modifies this
      ensures Valid()
      ensures State() == if complete && active then HandleTabChangeSpec(old(State()), tabId, tabs, stopAt, savedAt, startAt, today, parse)
                         else old(State())
    {
      if complete && active {
        HandleTabChange(tabId, tabs, stopAt, savedAt, startAt, today);
      }
    }

    /**
     * `chrome.windows.onFocusChanged`, and the startup query of the current
     * window's active tab: losing all focus closes the session; a focused window
     * without an active tab changes nothing.
     */
    method OnFocusChanged(focus: WindowFocus, tabs: map<TabId, Tab>, stopAt: nat, savedAt: nat, startAt: nat, today: Day)
      requires Valid()
      modifies this
      ensures Valid()
      ensures State() == match focus
        case NoWindowFocused => StopSpec(old(State()), stopAt, savedAt, today, parse)
        case WindowFocused(None) => old(State())
        case WindowFocused(Some(id)) => HandleTabChangeSpec(old(State()), id, tabs, stopAt, savedAt, startAt, today, parse)
    {
      match focus
      case NoWindowFocused =>
        StopTracking(stopAt, savedAt, today);
      case WindowFocused(active) =>
        if active.Some? {
          HandleTabChange(active.value, tabs, stopAt, savedAt, startAt, today);
        }
    }

    /** `chrome.runtime.onSuspend`: flush the open session. */
    method OnSuspend(stopAt: nat, savedAt: nat, today: Day)
      requires Valid()
      modifies this
      ensures Valid()
      ensures State() == StopSpec(old(State()), stopAt, savedAt, today, parse)
    {
      StopTracking(stopAt, savedAt, today);
    }
  }
}
