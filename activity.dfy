/**
 * The content script (content.js): an active/inactive flag driven by page
 * events and a 30-second inactivity check, which tells the background page
 * about every change of the flag and nothing else.
 */
module Activity {
  /** The messages the content script sends with `chrome.runtime.sendMessage`. */
  datatype Message = ContentLoaded(url: string) | UserActive | UserInactive

  /** Inactivity is reported after more than this many milliseconds without an event. */
  const InactivityMs := 30000

  /** The script's two variables and the messages sent so far, oldest first. */
  datatype MonitorState = MonitorState(isActive: bool, lastActivity: int, sent: seq<Message>)

  /** The state right after the script ran on a page with address href, at time now. */
  function Loaded(href: string, now: int): MonitorState {
    MonitorState(true, now, [ContentLoaded(href)])
  }

  /** `trackActivity()` at time now, for a mouse move, click, key press or scroll. */
  function TrackSpec(s: MonitorState, now: int): MonitorState {
    if s.isActive then s.(lastActivity := now)
    else MonitorState(true, now, s.sent + [UserActive])
  }

  /** The interval callback at time now. */
  function CheckSpec(s: MonitorState, now: int): MonitorState {
    if now - s.lastActivity > InactivityMs && s.isActive then s.(isActive := false, sent := s.sent + [UserInactive])
    else s
  }

  /** Reported changes of the flag, oldest first: `USER_INACTIVE`, `USER_ACTIVE`, `USER_INACTIVE`, ... */
  predicate Alternating(changes: seq<Message>) {
    forall i :: 0 <= i < |changes| ==> changes[i] == if i % 2 == 0 then UserInactive else UserActive
  }

  /**
   * The load message comes first; after it the messages strictly alternate,
   * starting with `USER_INACTIVE`, and the flag is active exactly when the
   * number of changes reported is even.
   */
  predicate Valid(s: MonitorState) {
    && |s.sent| >= 1
    && s.sent[0].ContentLoaded?
    && Alternating(s.sent[1..])
    && (s.isActive <==> |s.sent| % 2 == 1)
  }

  lemma LoadedValid(href: string, now: int)
    ensures Valid(Loaded(href, now))
  {
  }

  /**
   * `trackActivity` always records now as the last activity and leaves the flag
   * active; it sends `USER_ACTIVE` exactly when the flag was inactive.
   */
  lemma TrackEffect(s: MonitorState, now: int)
    ensures var t := TrackSpec(s, now);
      && t.lastActivity == now && t.isActive
      && (t.sent == s.sent + [UserActive] <==> !s.isActive)
      && (t.sent == s.sent <==> s.isActive)
  {
    var t := TrackSpec(s, now);
    if !s.isActive {
      assert |t.sent| == |s.sent| + 1;
    }
  }

  /**
   * The check deactivates and sends `USER_INACTIVE` exactly when the flag is
   * active and more than 30 seconds passed since the last activity; otherwise
   * it changes nothing. It never moves the last activity.
   */
  lemma CheckEffect(s: MonitorState, now: int)
    ensures var t := CheckSpec(s, now);
      && t.lastActivity == s.lastActivity
      && (t != s <==> s.isActive && now - s.lastActivity > InactivityMs)
      && (t != s ==> !t.isActive && t.sent == s.sent + [UserInactive])
  {
    var t := CheckSpec(s, now);
    if s.isActive && now - s.lastActivity > InactivityMs {
      assert |t.sent| == |s.sent| + 1;
    }
  }

  lemma TrackPreserves(s: MonitorState, now: int)
    requires Valid(s)
    ensures Valid(TrackSpec(s, now))
  {
    var t := TrackSpec(s, now);
    if !s.isActive {
      assert t.sent[1..] == s.sent[1..] + [UserActive];
    }
  }

  lemma CheckPreserves(s: MonitorState, now: int)
    requires Valid(s)
    ensures Valid(CheckSpec(s, now))
  {
    var t := CheckSpec(s, now);
    if t != s {
      assert t.sent[1..] == s.sent[1..] + [UserInactive];
    }
  }

  /** Activity within 30 seconds keeps the next check silent. */
  lemma RecentActivityKeepsActive(s: MonitorState, t: int, now: int)
    requires now - t <= InactivityMs
    ensures CheckSpec(TrackSpec(s, t), now) == TrackSpec(s, t)
  {
  }

  /** Checking twice at the same moment is checking once. */
  lemma CheckIdempotent(s: MonitorState, now: int)
    ensures CheckSpec(CheckSpec(s, now), now) == CheckSpec(s, now)
  {
  }

  /** What happens to the script: a page event or an interval tick, each at a time. */
  datatype Event = PageEvent(at: int) | IntervalTick(at: int)

  function Run(s: MonitorState, events: seq<Event>): MonitorState
    decreases |events|
  {
    if events == [] then s
    else
      var r := Run(s, events[..|events| - 1]);
      match events[|events| - 1]
      case PageEvent(t) => TrackSpec(r, t)
      case IntervalTick(t) => CheckSpec(r, t)
  }

  /**
   * Whatever the events, the messages after the load message alternate,
   * inactive first, and each one reports a change of the flag.
   */
  lemma {:induction false} RunValid(href: string, start: int, events: seq<Event>)
    ensures Valid(Run(Loaded(href, start), events))
    ensures Run(Loaded(href, start), events).sent[0] == ContentLoaded(href)
    decreases |events|
  {
    if events == [] {
      LoadedValid(href, start);
    } else {
      var r := Run(Loaded(href, start), events[..|events| - 1]);
      RunValid(href, start, events[..|events| - 1]);
      match events[|events| - 1]
      case PageEvent(t) => TrackPreserves(r, t);
      case IntervalTick(t) => CheckPreserves(r, t);
    }
  }

  /** The content script's state: `isActive`, `lastActivity` and the messages sent. */
  class ActivityMonitor {
    var isActive: bool
    var lastActivity: int
    var sent: seq<Message>

    function State(): MonitorState
      reads this
    {
      MonitorState(isActive, lastActivity, sent)
    }

    /** Running the script at time now: active, and `CONTENT_LOADED` sent with the page address. */
    constructor (href: string, now: int)
      ensures State() == Loaded(href, now)
      ensures Valid(State())
    {
      isActive := true;
      lastActivity := now;
      sent := [ContentLoaded(href)];
    }

    method TrackActivity(now: int)
      requires Valid(State())
      modifies this
      ensures State() == TrackSpec(old(State()), now)
      ensures Valid(State())
    {
      TrackPreserves(State(), now);
      lastActivity := now;
      if !isActive {
        isActive := true;
        sent := sent + [UserActive];
      }
    }

    method CheckInactivity(now: int)
      requires Valid(State())
      modifies this
      ensures State() == CheckSpec(old(State()), now)
      ensures Valid(State())
    {
      CheckPreserves(State(), now);
      if now - lastActivity > InactivityMs && isActive {
        isActive := false;
        sent := sent + [UserInactive];
      }
    }
  }
}
