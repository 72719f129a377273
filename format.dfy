/**
 * The text formatters shared by the popup and the dashboard: `formatTime`
 * (identical in dashboard.js and popup.js) and the `m:ss` current-session timer.
 */
module Format {
  import opened Wrappers
  import opened Decimal

  /** Which of the three shapes `formatTime` prints, with its numbers. */
  datatype Reading =
    | HoursMinutes(hours: nat, minutes: nat)   // "3h 5m"
    | MinutesOnly(minutes: nat)                // "12m"
    | SecondsOnly(seconds: nat)                // "42s"

  /**
   * The numbers `formatTime` prints for a duration in milliseconds: whole hours
   * and the minutes within the hour when there is at least an hour, else whole
   * minutes when there is at least a minute, else whole seconds. Every shape
   * truncates: it never shows more time than elapsed, and less by under a minute
   * (under a second for the seconds shape).
   */
  function Breakdown(ms: nat): (r: Reading)
    ensures r.HoursMinutes? <==> ms / 1000 >= 3600
    ensures r.HoursMinutes? ==>
      r.hours >= 1 && r.minutes < 60 &&
      r.hours * 3600 + r.minutes * 60 <= ms / 1000 < r.hours * 3600 + r.minutes * 60 + 60
    ensures r.MinutesOnly? <==> 60 <= ms / 1000 < 3600
    ensures r.MinutesOnly? ==> 1 <= r.minutes < 60 && r.minutes * 60 <= ms / 1000 < r.minutes * 60 + 60
    ensures r.SecondsOnly? ==> r.seconds == ms / 1000 < 60
  {
    var totalSeconds := ms / 1000;
    var hours := totalSeconds / 3600;
    var minutes := (totalSeconds % 3600) / 60;
    if hours > 0 then HoursMinutes(hours, minutes)
    else if minutes > 0 then MinutesOnly(minutes)
    else SecondsOnly(totalSeconds)
  }

  function Render(r: Reading): string {
    match r
    case HoursMinutes(h, m) => NatToString(h) + "h " + NatToString(m) + "m"
    case MinutesOnly(m) => NatToString(m) + "m"
    case SecondsOnly(s) => NatToString(s) + "s"
  }

  /**
   * Splits the leading decimal number off a text: the number and what follows
   * it. Only a numeral as `${n}` prints it is read, so a leading zero before
   * other digits is refused.
   */
  function ReadNumber(s: string): (r: Option<(nat, string)>)
    ensures r.Some? ==> s == NatToString(r.value.0) + r.value.1
  {
    var k := DigitPrefixLength(s);
    if k == 0 then None
    else
      var n := ParseDigits(s[..k]);
      if s[..k] != NatToString(n) then None
      else
        assert s == s[..k] + s[k..];
        Some((n, s[k..]))
  }

  /** Reads a `formatTime` text back into its shape and numbers. */
  function ParseReading(s: string): Option<Reading> {
    match ReadNumber(s)
    case None => None
    case Some((n, rest)) =>
      if rest == "s" then Some(SecondsOnly(n))
      else if rest == "m" then Some(MinutesOnly(n))
      else if |rest| >= 2 && rest[..2] == "h " then
        match ReadNumber(rest[2..])
        case Some((m, "m")) => Some(HoursMinutes(n, m))
        case _ => None
      else None
  }

  /** The digits of n followed by a non-digit suffix read back as n, then the suffix. */
  lemma ReadNumberThen(n: nat, t: string)
    requires t == [] || !IsDigit(t[0])
    ensures ReadNumber(NatToString(n) + t) == Some((n, t))
  {
    var a := NatToString(n);
    DigitPrefixOf(a, t);
    assert (a + t)[..|a|] == a && (a + t)[|a|..] == t;
    ParseNatToString(n);
  }

  /** Only the text `Render` prints for a reading reads back as that reading. */
  lemma ReadingText(s: string, r: Reading)
    requires ParseReading(s) == Some(r)
    ensures s == Render(r)
  {
    var n, rest := ReadNumber(s).value.0, ReadNumber(s).value.1;
    if rest != "s" && rest != "m" {
      var q := rest[2..];
      assert rest == "h " + q;
      var m := ReadNumber(q).value.0;
      RenderHoursMinutes(n, m, q);
    }
  }

  lemma RenderHoursMinutes(h: nat, m: nat, q: string)
    requires q == NatToString(m) + "m"
    ensures Render(HoursMinutes(h, m)) == NatToString(h) + ("h " + q)
  {
  }

  lemma ParseRender(r: Reading)
    ensures ParseReading(Render(r)) == Some(r)
  {
    match r
    case HoursMinutes(h, m) =>
      var a, b := NatToString(h), NatToString(m);
      var rest := "h " + b + "m";
      assert a + "h " + b + "m" == a + rest;
      ReadNumberThen(h, rest);
      assert rest[..2] == "h " && rest[2..] == b + "m";
      ReadNumberThen(m, "m");
    case MinutesOnly(m) => ReadNumberThen(m, "m");
    case SecondsOnly(sec) => ReadNumberThen(sec, "s");
  }

  /** `formatTime(milliseconds)`: the text reads back as exactly the `Breakdown` numbers. */
  function FormatTime(ms: nat): (text: string)
    ensures ParseReading(text) == Some(Breakdown(ms))
  {
    ParseRender(Breakdown(ms));
    Render(Breakdown(ms))
  }

  /** No other text reads back as the `Breakdown` numbers: the formatted text is the only one. */
  lemma FormatTimeUnique(ms: nat, s: string)
    requires ParseReading(s) == Some(Breakdown(ms))
    ensures s == FormatTime(ms)
  {
    ReadingText(s, Breakdown(ms));
  }

  /** The current-session timer text after n ticks: `${minutes}:${seconds.padStart(2, '0')}`. */
  function TimerText(n: nat): (text: string)
    ensures |text| >= 4 && text[|text| - 3] == ':'
    ensures AllDigits(text[..|text| - 3]) && ParseDigits(text[..|text| - 3]) == n / 60
    ensures text[0] == '0' ==> |text| == 4
    ensures AllDigits(text[|text| - 2..]) && ParseDigits(text[|text| - 2..]) == n % 60
    ensures ParseTimer(text) == Some(n)
  {
    var m := NatToString(n / 60);
    var s := PadStart2(NatToString(n % 60));
    PadStart2Digits(n % 60);
    ReadNumberThen(n / 60, ":" + s);
    var text := m + ":" + s;
    assert text == m + (":" + s);
    assert text[..|m|] == m && (":" + s)[1..] == s;
    ParseNatToString(n / 60);
    text
  }

  /** Reads `m:ss` back to a number of seconds. */
  function ParseTimer(text: string): Option<nat> {
    match ReadNumber(text)
    case None => None
    case Some((m, rest)) =>
      if |rest| == 3 && rest[0] == ':' && AllDigits(rest[1..]) && ParseDigits(rest[1..]) < 60 then
        Some(60 * m + ParseDigits(rest[1..]))
      else None
  }

  /** Two digits are determined by the number they denote. */
  lemma TwoDigits(p: string, q: string)
    requires |p| == 2 && AllDigits(p) && |q| == 2 && AllDigits(q)
    requires ParseDigits(p) == ParseDigits(q)
    ensures p == q
  {
    assert p[..1] == [p[0]] && q[..1] == [q[0]];
    assert DigitValue(p[0]) == DigitValue(q[0]);
  }

  lemma TimerTextParts(n: nat)
    ensures TimerText(n) == NatToString(n / 60) + ":" + PadStart2(NatToString(n % 60))
  {
  }

  lemma DivMod60(m: nat, sec: nat)
    requires sec < 60
    ensures (60 * m + sec) / 60 == m && (60 * m + sec) % 60 == sec
  {
  }

  /** Minutes in digits, a colon and the seconds as two digits is the timer text of their total. */
  lemma TimerFromParts(n: nat, m: nat, ss: string)
    requires |ss| == 2 && AllDigits(ss) && ParseDigits(ss) < 60
    requires n == 60 * m + ParseDigits(ss)
    ensures TimerText(n) == NatToString(m) + ":" + ss
  {
    var sec := ParseDigits(ss);
    DivMod60(m, sec);
    PadStart2Digits(sec);
    TwoDigits(ss, PadStart2(NatToString(sec)));
    TimerTextParts(n);
  }

  /** No other text reads back as n: the timer text is the only one. */
  lemma TimerTextUnique(n: nat, text: string)
    requires ParseTimer(text) == Some(n)
    ensures text == TimerText(n)
  {
    var m, rest := ReadNumber(text).value.0, ReadNumber(text).value.1;
    assert rest == ":" + rest[1..];
    TimerFromParts(n, m, rest[1..]);
  }
}
