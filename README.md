# ProductiveFocus time tracker — a Dafny model

This project models the core of a browser extension that measures the time a
user spends on each website and reports on it.

- **Tracker.** The background page (`TimeTracker`, background.js) keeps at most
  one open session: the active tab and the moment it became active. A tab
  switch, a completed page load in the active tab, the browser losing focus, a
  switch to another window that has an active tab, and suspension each close
  the session. A focused window without an active tab leaves it open. A session longer than one second is saved into
  two storage documents:
  - `timeData`: per domain, total time, visits, last visit, title and category;
  - `dailyData`: per calendar day, per domain, milliseconds.
- **Dashboard.** The dashboard page (`DashboardManager`, dashboard.js) derives
  everything it shows from those two documents:
  - the days of the chosen time range and the summary statistics;
  - the websites list with its category filter;
  - the daily chart and the category chart;
  - the insights and the weekly report.
- **Popup.** The popup (`PopupManager`, popup.js) shows:
  - today's productive and unproductive time and the productivity score;
  - today's five biggest sites;
  - the current site and a session timer.
- **Content script.** The content script (content.js) keeps an active/inactive
  flag from page events and a 30-second inactivity check. It reports each change
  of the flag to the background page.

The model is organised by the program's own structure.

- `js_object.dfy` (`JsObject`): JavaScript objects used as dictionaries. Each
  is an insertion-ordered list of `(key, value)` pairs.
  - Reading an absent property gives `None`.
  - Writing replaces the value in place, or appends a new key at the end.
  - So the order of `Object.entries` and the outcome of a stable sort on ties
    are those of the source; `Aggregate.SortDescStable` proves the sort stable.
- `category.dfy` (`Category`): `categorizeWebsite` and the two fixed domain
  tables.
- `hostnames.dfy` (`Hostnames`): `extractDomain` and the `chrome://` exclusion.
  It also has `formatDomain`, including the regular expression `/\..+/`.
- `decimal.dfy` and `format.dfy` (`Decimal`, `Format`): decimal rendering,
  `formatTime` and the `m:ss` session timer.
- `storage.dfy` (`Storage`): the two documents, and what one `saveTimeData`
  call does to them.
- `tracker.dfy` (`Tracker`): the tracker's state machine.
  - A pure specification on a state value.
  - The class `TimeTracker`, whose methods update its fields in place and are
    proved against that specification.
- `aggregate.dfy` (`Aggregate`): sums, the productivity score, grouping into
  objects, and sorting with `slice(0, n)`.
- `dashboard.dfy` (`Dashboard`): the class `DashboardManager`.
  - Every aggregating method runs the source's nested
    `forEach(... forEach(...))` loops.
  - The inner loop over one day's bucket is a method of its own (`AddDayTo…`).
    It is specified by a fold that starts from the accumulator it is given.
  - The outer loop composes those folds.
- `popup.dfy` (`Popup`): the popup's summary loop, top sites, current-site line
  and the `SessionTimer` class.
- `activity.dfy` (`Activity`): the content script's state machine.
  - A pure specification on a state value.
  - The class `ActivityMonitor`, with the sent messages as a field.

Conventions of the model:

- **Environment as parameters.** Time (`Date.now()`) and the calendar day
  (`toDateString()`) are parameters of the operations that read them.
  - Each clock read that an `await` or a callback separates from the others is
    its own parameter. A tab change reads three: the end of the old session
    (`stopAt`, background.js:67), its record's last visit after the storage
    read (`savedAt`, background.js:105 and :111), and the start of the new
    session in the `chrome.tabs.get` callback (`startAt`, background.js:58).
  - A day is an integer numbered from the epoch.
  - `new URL(url).hostname` is a function parameter `string -> Option<string>`.
    `None` stands for the constructor throwing.
  - Each Chrome event is a method call carrying what the event handler would
    have read: the tabs `chrome.tabs.get` can resolve, and the focused window's
    active tab.
- **Scores in exact arithmetic.** `Math.round((p / t) * 100)` is the exact
  percentage rounded half up: `(200p + t) / (2t)`, or 0 when `t` is 0.
  `Math.round(ms / 60000)` is `(ms + 30000) / 60000`.
- **Details of the code.** The model follows what the code does in a few
  places where a reader might expect otherwise.
  - **Where "www." is removed.** `extractDomain` removes the first `"www."`
    anywhere in the hostname (`String.prototype.replace` with a string
    pattern), not only a leading one: `m.www.bbc.com` becomes
    `m.bbc.com` (`Hostnames.ExtractDomainInnerWww`).
  - **When a category is computed.** A domain's category is computed only when
    its record is created, and never recomputed on later saves
    (`Storage.SavedTimeDataRecord`).
  - **Which days the insights use.** `calculateInsights` and the websites list
    use all stored days, not the selected time range.
  - **The weekly-pattern card.** This card depends on the number of stored
    days.

## Model

| member | source | states |
|---|---|---|
| Category.Categorize | background.js:127-169 | The productive table is consulted first. A domain in it is productive with its label; otherwise a domain in the unproductive table is unproductive with its label; any other domain is neutral with the label "Other". Every label is non-empty. |
| Hostnames.FindFrom | background.js:84 | The search used by `replace` with a string pattern: the result is an occurrence at or after the start position, and no earlier position from there is one. |
| Hostnames.ReplaceFirst | background.js:84 | `s.replace(pat, rep)` with a string pattern; `Hostnames.ReplaceFirstRemoves` states its meaning. |
| Hostnames.ReplaceFirstRemoves | background.js:84 | With an empty replacement, the result is the text with its first occurrence of the pattern cut out, or the text itself when there is none. |
| Hostnames.ExtractDomain | background.js:81-88 | When the URL does not parse, the raw URL is the domain. Otherwise the domain is the hostname with its first occurrence of "www." cut out, or the hostname itself when "www." does not occur. |
| Hostnames.ExtractDomainLeadingWww | background.js:84 | A hostname "www." + rest gives exactly rest. |
| Hostnames.ExtractDomainInnerWww | background.js:84 | A "www." inside the hostname is removed too: "m.www.bbc.com" gives "m.bbc.com". |
| Hostnames.FormatDomain | popup.js:151-153 | `formatDomain`; see `Hostnames.FormatDomainOfHostname` and `Hostnames.FormatDomainExample`. |
| Hostnames.FormatDomainOfHostname | dashboard.js:573-575 | On a hostname without line breaks, `formatDomain` keeps the upper-cased first character and a prefix of the rest that ends just before the first dot that `/\..+/` can match there. Nothing is cut exactly when there is no such dot. |
| Hostnames.FormatDomainExample | popup.js:151-153 | "github.com" is displayed as "Github". |
| Format.Breakdown | popup.js:155-167 | There are three shapes. With at least an hour: hours ≥ 1 and minutes within the hour, 0–59. With at least a minute and under an hour: minutes 1–59. Otherwise: the whole seconds, under 60. Each shape truncates, showing less than the elapsed time by under a minute (under a second for seconds). |
| Format.ParseRender | popup.js:160-166 | Each of the three text shapes ("3h 5m", "12m", "42s") reads back as exactly its numbers. |
| Format.ReadNumberThen | popup.js:160-166 | The digits of a number followed by a text not starting with a digit read back as that number, then that text. |
| Format.FormatTime | dashboard.js:577-589 | The text of a duration reads back as exactly the numbers `Breakdown` gives for it. Numerals are read only as `${n}` prints them, without leading zeros. |
| Format.ReadingText | dashboard.js:577-589 | A text that reads back as a reading is the text `Render` prints for it, so no zero-padded variant such as "3h 05m" reads back. |
| Format.FormatTimeUnique | dashboard.js:577-589 | The formatted text is the only text that reads back as the `Breakdown` numbers. |
| Format.TimerText | popup.js:134-139 | The timer text for n seconds is the minutes n / 60 in digits, a colon, and the seconds n % 60 as exactly two digits. The minutes start with 0 only when they are 0. It reads back to n as minutes * 60 + seconds. |
| Format.TimerTextUnique | popup.js:134-139 | The timer text is the only text that reads back as n, so 99 seconds is "1:39" and not "01:39". |
| Storage.SavedTimeData | background.js:98-112 | The `timeData` update of one save. `Storage.SavedTimeDataRecord`, `Storage.SavedTimeDataOthers` and `Storage.SavedTimeDataTotal` state what it does. |
| Storage.SavedDailyData | background.js:114-121 | The `dailyData` update of one save. `Storage.SavedDailyDataEntries` and `Storage.SavedDailyDataTotal` state what it does. |
| Storage.SavedTimeDataRecord | background.js:99-112 | After a save, the domain has a record. Its time is the old time plus the session, its visits one more, and its last visit now. The new title is used only when truthy, or when the record is new. Its category is the old record's category, or the one computed when the record is created. |
| Storage.SavedTimeDataOthers | background.js:98-112 | Every other domain's record is unchanged, and keeps its position among the records. |
| Storage.SavedDailyDataEntries | background.js:114-121 | Today's entry for the domain goes up by the session (from 0 when absent). Every other entry of today and every other day is unchanged. |
| Storage.SavedWellFormed | background.js:90-125 | A save keeps both documents valid JSON objects: distinct keys at every level. |
| Storage.SavedDailyDataTotal | background.js:114-121 | A save adds the session to its domain's total over all days and nothing to any other domain. |
| Storage.SavedTimeDataTotal | background.js:109-110 | A save adds the session to its domain's record total and one visit, and nothing to other domains. |
| Storage.SavePreservesConsistency | background.js:98-121 | If every record's total equals the sum of its daily entries before a save, the same holds after it. |
| Storage.ReplayFromEmpty | background.js:90-125 | From empty storage, after any sequence of saves, a domain's visits is the number of its saved sessions. Its record total and its total over days both equal the sum of those sessions. |
| Tracker.StartSpec | background.js:56-60 | `startTracking` on the state value; `Tracker.TimeTracker.StartTracking` is proved against it. |
| Tracker.StopSpec | background.js:62-79 | `stopTracking` on the state value; `Tracker.StopSpecEffect` and `Tracker.StopPreserves` state its properties. |
| Tracker.HandleTabChangeSpec | background.js:44-54 | `handleTabChange` on the state value; `Tracker.HandleTabChangePreserves` states its properties. |
| Tracker.StopSpecEffect | background.js:62-79 | Without an open session (tracking, with a tab and a non-zero start), nothing changes. An open session always ends idle. Its time, from the start to the end read `stopAt`, is saved once, exactly when it lasted more than 1000 ms, with the later read `savedAt` as the last visit. |
| Tracker.StopPreserves | background.js:62-79 | Closing a session keeps the tracker either idle or fully tracking. It keeps storage well formed and keeps the documents consistent with each other. |
| Tracker.HandleTabChangePreserves | background.js:44-54 | A tab change closes the old session. It then tracks the new tab from `startAt` exactly when that tab has a URL that is not `chrome://`; otherwise an open session ends idle. It keeps the invariant and consistency. |
| Tracker.TimeTracker.constructor | background.js:3-8 | The tracker starts idle on the given storage. |
| Tracker.TimeTracker.StartTracking | background.js:56-60 | The tab and the start time are recorded, and tracking is on. |
| Tracker.TimeTracker.StopTracking | background.js:62-79 | The fields and storage change as the stop specification says. |
| Tracker.TimeTracker.SaveTimeData | background.js:90-125 | Both documents become the result of one save. |
| Tracker.TimeTracker.AddToRecord | background.js:98-112 | A missing record is created, then the record is updated in place, as the save specification says. |
| Tracker.TimeTracker.AddToDailyBucket | background.js:114-121 | Today's bucket and a zero entry are created when missing, then the entry grows by the session. |
| Tracker.TimeTracker.HandleTabChange | background.js:44-54 | Stop, then start on the new tab when it is trackable. |
| Tracker.TimeTracker.OnActivated | background.js:12-14 | Activating a tab is a tab change. |
| Tracker.TimeTracker.OnUpdated | background.js:17-21 | Only a completed load in the active tab is a tab change; any other update changes nothing. |
| Tracker.TimeTracker.OnFocusChanged | background.js:24-34 | Losing all focus closes the session. A focused window's active tab is a tab change; a focused window without one changes nothing. |
| Tracker.TimeTracker.OnSuspend | background.js:180-182 | Suspension closes the open session. |
| Aggregate.KindTotalsSplit | popup.js:31-40 | Every millisecond is counted exactly once: as productive, as unproductive, or as other (neutral or without a record). |
| Aggregate.KindTotalsBound | dashboard.js:117-131 | Productive plus unproductive time never exceeds the total. |
| Aggregate.FocusCountBound | dashboard.js:126-129 | There are never more focus sessions than entries. Focus sessions times 25 minutes never exceed the total time. |
| Aggregate.Score | dashboard.js:139 | The score is 0 without time. Otherwise it is the percentage rounded to the nearest integer, halves up; it is at most 100 when productive ≤ total, and exactly 100 when they are equal. |
| Aggregate.MinutesRounded | dashboard.js:296 | The result is the nearest whole number of minutes, halves up. |
| Aggregate.GroupIntoAppend | dashboard.js:312-317 | Running the grouping loop over the entries of several days is running it day after day on the same object. |
| Aggregate.GroupGet | dashboard.js:312-317 | Each group holds exactly the time of the entries grouped under its label; a label no entry has reads as 0. |
| Aggregate.GroupKeysUnique | dashboard.js:315 | The groups have distinct labels. |
| Aggregate.GroupSum | dashboard.js:312-317 | The groups together hold all the time of the entries that have a label. |
| Aggregate.ChartGroupsEverything | dashboard.js:314 | The category chart groups every entry: a domain without a record or label goes to "Other". |
| Aggregate.FlattenEntries | dashboard.js:153-161 | Over well-formed days, a domain's entries add up to its total over days. There is one entry per day the domain appears on. |
| Aggregate.SortDesc | dashboard.js:173 | The result is sorted largest first and is a permutation of the input. |
| Aggregate.InsertDescStable | dashboard.js:173 | Inserting an element places it after every element with its key. |
| Aggregate.SortDescStable | dashboard.js:173 | The sort is stable: for every key, the elements with that key come out in their input order. |
| Aggregate.Take | dashboard.js:180 | `slice(0, n)` gives the first min(n, length) elements. |
| Aggregate.TopN | dashboard.js:476-478 | At most n are shown, largest first, all from the input. No shown element is smaller than one left out. |
| Aggregate.TopNLeftOut | popup.js:56-58 | An element left out of the first n has a key no larger than any shown. |
| Aggregate.TopNDistinct | dashboard.js:173-179 | A list without repeats has none after sorting and `slice(0, n)`. |
| Aggregate.TopNAll | dashboard.js:179 | When `slice(0, n)` gives fewer than n elements, every input element is among them. |
| Aggregate.TopSite | dashboard.js:367 | Whenever time is recorded, the first site after sorting has a domain's whole time, and no domain has more. |
| Aggregate.TopGroups | dashboard.js:476-479 | The first n groups are at most n, largest first, each with its label's whole time. No label left out has more time than a label shown. |
| Aggregate.TopGroupsLeftOut | dashboard.js:476-478 | A label missing from the first n groups has no more time than any group shown. |
| Dashboard.Cutoff | dashboard.js:86-98 | The first day each range keeps; `Dashboard.RangesNest` and `Dashboard.FilterFromGet` state what that keeps. |
| Dashboard.FilterFrom | dashboard.js:100-106 | The days from a cutoff on; `Dashboard.FilterFromGet` states its meaning. |
| Dashboard.FilterFromGet | dashboard.js:100-106 | The filtered days are exactly the stored days on or after the cutoff, with their buckets unchanged. |
| Dashboard.RangesNest | dashboard.js:86-106 | The ranges nest. Every day "today" keeps, "week" keeps with the same bucket, and every day "week" keeps, "month" keeps. From a month after the epoch on, every day "month" keeps, "all" keeps. |
| Dashboard.SiteStatsIntoAppend | dashboard.js:153-161 | Running the per-site loop over several days is running it day after day on the same object. |
| Dashboard.SiteStatsOfGet | dashboard.js:152-161 | A domain's aggregate is the sum and the number of its entries; a domain without entries has none. |
| Dashboard.SiteStatsOfDays | dashboard.js:152-161 | Over well-formed storage, every domain seen gets an aggregate. Its time is the domain's total over days, and its visits is the number of days it was seen on (at least 1). |
| Dashboard.FilterSites | dashboard.js:164-170 | A site is kept exactly when it was there and its record's type equals the filter. |
| Dashboard.FilterSitesDistinct | dashboard.js:164-170 | Filtering a list of sites without repeats gives a list without repeats. |
| Dashboard.FilterSitesAll | dashboard.js:165 | The filter "all" keeps every site, in order. |
| Dashboard.WebsitesView | dashboard.js:148-180 | The websites list; `Dashboard.WebsitesViewRows`, `Dashboard.WebsitesViewTop` and `Dashboard.WebsitesViewConsistent` state its properties. |
| Dashboard.WebsitesViewRows | dashboard.js:148-180 | The list is "No websites found" exactly when no domain seen passes the filter. Otherwise it has 1 to 10 rows, sorted by time, largest first. Each row passes the filter and has its domain's total over days and number of days. Which rows are shown is stated by `Dashboard.WebsitesViewTop`. |
| Dashboard.WebsitesViewTop | dashboard.js:172-180 | The rows have distinct domains. There are fewer than ten only when every domain seen that passes the filter has a row, so there are min(10, passing domains) rows. A passing domain without a row has no more time than the last row shown. |
| Dashboard.PassingSitesFacts | dashboard.js:152-170 | The aggregated sites that pass the filter have no repeats. Each holds its domain's total over days and number of days, and every domain seen that passes the filter is among them. |
| Dashboard.TopRowsDistinctDomains | dashboard.js:172-179 | Sites without repeats, whose aggregate is fixed by their domain, keep distinct domains after sorting and `slice(0, 10)`. |
| Dashboard.TopRowsLeftOutTime | dashboard.js:172-179 | A site whose domain has no row among the first ten has no more time than the last row. |
| Dashboard.WebsitesViewDistinct | dashboard.js:172-180 | The rows of the websites list have distinct domains. |
| Dashboard.WebsitesViewComplete | dashboard.js:179 | There are fewer than ten rows only when every domain seen that passes the filter has its row. |
| Dashboard.WebsitesViewLeftOut | dashboard.js:172-179 | A domain seen that passes the filter but has no row has no more time than the last row shown. |
| Dashboard.WebsitesViewConsistent | dashboard.js:148-180 | With consistent documents, a row's time is also its domain record's total. |
| Dashboard.DayPoint | dashboard.js:283-300 | One daily-chart point; `Dashboard.DayPointBounds` states its bounds. |
| Dashboard.DayPointBounds | dashboard.js:283-300 | A day without data plots as 0, and a score point is a percentage. |
| Dashboard.DashboardManager.UpdateDailyChart | dashboard.js:273-307 | There are seven points, six days ago first and today last. Each point is that day's rounded minutes or its productivity score; a missing day is 0 and a score is at most 100. |
| Dashboard.InsightsOf | dashboard.js:344-407 | The insight cards of the stored days; `Dashboard.InsightsShape` states their shape. |
| Dashboard.InsightCardsShape | dashboard.js:364-404 | No cards without time. Otherwise, given a site: the most-visited site, the productivity verdict, the peak-time card, and the weekly-pattern card from seven days on. |
| Dashboard.InsightsShape | dashboard.js:344-407 | No insights exactly when no time is recorded. Otherwise there are 3 or 4 cards: a most-visited site with its whole time (no domain has more); the score with its verdict (a percentage); the peak-time card; and the weekly-pattern card once seven days are stored. |
| Dashboard.Recommendations | dashboard.js:492-511 | There are two to five tips, always ending with the two fixed ones. The two low-score tips come first exactly when the score is under 50, the screen-time tip appears exactly above eight hours, and the praise exactly from 70. The length is 2 plus one for each tip that applies, so no tip appears twice, and the screen-time tip comes before the praise. Together these determine the list. |
| Dashboard.LastNDays | dashboard.js:514-527 | The last n days; `Dashboard.LastNDaysGet` states its meaning. |
| Dashboard.LastNDaysGet | dashboard.js:514-527 | The last n days are exactly the stored days in (today − n, today], with their buckets unchanged. |
| Dashboard.WeeklyReportOf | dashboard.js:455-490 | The weekly report; `Dashboard.WeeklyReportShape` states its contents. |
| Dashboard.WeeklyReportShape | dashboard.js:455-490 | The report covers the last seven days. It holds their total time and productive time (≤ total), and a score that is a percentage. It shows at most five category labels, largest first, each with its whole time; no label left out has more time than one shown. The recommendations are those for the score and the total. |
| Dashboard.AddDayToSiteStats | dashboard.js:154-160 | One day's entries are folded into the per-site aggregates given. |
| Dashboard.AddDayToCategoryChart | dashboard.js:313-316 | One day's entries are folded into the chart's label groups given. |
| Dashboard.AddDayToInsights | dashboard.js:353-361 | One day's entries are added to the total, to the productive time and to the per-domain times given. |
| Dashboard.AddDayToReport | dashboard.js:462-472 | One day's entries are added to the total, to the productive time and to the category groups given. |
| Dashboard.DashboardManager.constructor | dashboard.js:2-20 | The range starts as 'week' and the filter as 'all'. Absent documents read as empty objects. |
| Dashboard.DashboardManager.SetTimeRange | dashboard.js:30-33 | The selector's value becomes the time range. |
| Dashboard.DashboardManager.SetCategoryFilter | dashboard.js:36-39 | The filter's value becomes the category filter. |
| Dashboard.DashboardManager.GetFilteredData | dashboard.js:81-109 | The result keeps the days from the range's cutoff on, in order. |
| Dashboard.DashboardManager.UpdateStats | dashboard.js:111-146 | The result holds the total and productive time over the filtered days, the number of entries of 25 minutes or more, and the rounded score. Productive ≤ total, the score is a percentage (0 without time), and focus sessions times 25 minutes fit in the total. |
| Dashboard.DashboardManager.UpdateWebsitesList | dashboard.js:148-202 | The list is the websites view of all stored days under the current filter. |
| Dashboard.DashboardManager.UpdateCategoryChart | dashboard.js:309-325 | The chart's groups have distinct labels and hold all filtered time. Each label holds exactly its entries' time, and each data point is its group in rounded minutes, in label order. |
| Dashboard.DashboardManager.CalculateInsights | dashboard.js:344-407 | The nested loops compute the insights of all stored days. |
| Dashboard.DashboardManager.GetLastNDaysData | dashboard.js:514-527 | The loop collects the last n stored days. |
| Dashboard.DashboardManager.CreateWeeklyReportData | dashboard.js:455-490 | The nested loops compute the weekly report of the last seven days. |
| Popup.DisplaySummaryStats | popup.js:26-50 | The summary holds today's total, productive and unproductive time, with productive + unproductive ≤ total. Neutral entries and entries without a record add to the total only. The score is the rounded percentage, at most 100 and 0 without time. The texts are those of `formatTime` and the score followed by "%". |
| Popup.DisplayTopSites | popup.js:52-84 | The top-sites list; `Popup.TopSitesShape`, `Popup.TopSitesRows` and `Popup.TopSitesLeftOut` state its properties. |
| Popup.TopSitesShape | popup.js:52-84 | "No activity today" appears exactly when today's bucket is empty. Otherwise there are min(5, entries) rows, largest time first, each made from an entry of the bucket. No entry left out has more time than a row shown. |
| Popup.TopSitesRows | popup.js:56-80 | When there are rows, there are min(5, entries) of them, largest time first, each made from an entry of today's bucket with that entry's category and texts. |
| Popup.TopSitesLeftOut | popup.js:56-58 | An entry of today's bucket without a row has no more time than any row shown. |
| Popup.LoadTodayData | popup.js:12-24 | Today's bucket (empty when missing) and the records (empty when missing) are summarised and listed. |
| Popup.CurrentSiteText | popup.js:115-127 | A failed query shows "Unknown". No tab, no URL or a `chrome://` page shows "No active site". Otherwise the line is the formatted domain of the URL. |
| Popup.CurrentSiteChrome | popup.js:118-123 | An internal `chrome://` page never shows a domain. |
| Popup.CurrentSiteExample | popup.js:118-120 | "https://www.github.com/" is shown as "Github". |
| Popup.SessionTimer.constructor | popup.js:133 | The timer starts at 0 seconds. |
| Popup.SessionTimer.Tick | popup.js:134-140 | Each tick adds one second and gives the new `m:ss` text. |
| Activity.TrackSpec | content.js:9-16 | `trackActivity` on the state value; `Activity.TrackEffect` and `Activity.TrackPreserves` state its properties. |
| Activity.CheckSpec | content.js:25-31 | The inactivity check on the state value; `Activity.CheckEffect`, `Activity.CheckPreserves` and `Activity.CheckIdempotent` state its properties. |
| Activity.LoadedValid | content.js:5-34 | The script starts active, with the load message as its only message. |
| Activity.TrackEffect | content.js:9-16 | An event always records now as the last activity and leaves the flag active. It sends "USER_ACTIVE" exactly when the flag was inactive, and nothing otherwise. |
| Activity.CheckEffect | content.js:25-31 | The check deactivates and sends "USER_INACTIVE" exactly when the flag is active and more than 30000 ms passed since the last activity. Otherwise it changes nothing; it never moves the last activity. |
| Activity.TrackPreserves | content.js:9-16 | An event keeps the messages alternating. |
| Activity.CheckPreserves | content.js:25-31 | The check keeps the messages alternating. |
| Activity.RecentActivityKeepsActive | content.js:27 | Activity within 30 seconds keeps the next check silent. |
| Activity.CheckIdempotent | content.js:27-30 | Checking twice at the same moment is checking once. |
| Activity.RunValid | content.js:5-34 | After any sequence of events and checks, the load message is first. The later messages strictly alternate, "USER_INACTIVE" first, and the flag is active exactly when an even number of them were sent. |
| Activity.ActivityMonitor.constructor | content.js:5-34 | The script starts active at the load time, having sent "CONTENT_LOADED" with the page address. |
| Activity.ActivityMonitor.TrackActivity | content.js:9-16 | The fields and messages change as the event specification says, and alternation is kept. |
| Activity.ActivityMonitor.CheckInactivity | content.js:25-31 | The fields and messages change as the check specification says, and alternation is kept. |

## Left out

- Chrome APIs: `chrome.storage.local`, `chrome.tabs`, `chrome.windows`, runtime messages and `openOptionsPage` are not modelled as calls. Storage is fields or parameters. Each event is a method call that carries what the handler would read. A sent message is appended to a sequence.
- Asynchrony: `await` and callbacks are taken to run to completion in order. Interleavings of concurrent handlers, such as a second tab change arriving while a save is pending, are not modelled.
- The storage failure path: a rejected `chrome.storage` call and the `try`/`catch` logging in `loadData`, `loadTodayData` and `exportData` are not modelled. The read of missing documents as `{}` is modelled.
- Dates: how `Date.now()` advances between the three reads of a tab change is left open (the model does not assume `stopAt <= savedAt <= startAt`, and no property needs it). `toDateString()`, local midnight, time zones and daylight-saving days are not modelled. A day is an integer and `today` is a parameter, so the comparisons of dashboard.js:82-106 become comparisons of day numbers.
- Floating point: every score and rounded minute value is exact rational arithmetic rounded half up. Ties that JavaScript's binary floating point would round differently are not captured.
- Rendering: the `innerHTML` templates, Chart.js configuration and updates, favicon URLs, modal dialog and weekday labels are not modelled. The insight cards keep only their data (the site and time, the score and its verdict), not the descriptive sentences. The websites list keeps its rows, not their HTML.
- Export and sharing: `exportData` (JSON serialisation of both documents into a file download), `downloadReport`, `shareReport`, the clipboard and `alert` are not modelled.
- Timers: `setInterval` is not modelled. A tick is an explicit call (`SessionTimer.Tick`, `ActivityMonitor.CheckInactivity`), and the popup's once-a-second current-site refresh is `CurrentSiteText` called for each query result.
- The mock trend arrow of dashboard.js:143-145 (`Math.random`) is not modelled. The "Peak Activity Time" and "Weekly Pattern" texts are fixed, so only their presence is modelled.
- `toUpperCase` is modelled on ASCII letters only (`Hostnames.ToUpper`). Other characters, and letters whose upper case is longer than one character, are left as they are.
- JavaScript objects: inherited prototype properties, and the numeric ordering of integer-like keys in `Object.keys`/`Object.entries`, are not modelled. Every property is ordered by first insertion.
- Number formatting: numbers are rendered as plain decimal digits; JavaScript's exponent notation for huge values is not modelled.
- URL parsing: `new URL(url)` is a parameter; the model does not say how a hostname is obtained from a URL.
- Popup.CurrentSiteText: an exception thrown after the query succeeds cannot happen in the model, so "Unknown" comes only from a failed query.
