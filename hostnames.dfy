/**
 * Turning a tab's URL into the domain key (`extractDomain`, identical in
 * background.js and popup.js), the `chrome://` exclusion, and the display name
 * `formatDomain` (identical in dashboard.js and popup.js).
 */
module Hostnames {
  import opened Wrappers

  predicate OccursAt(s: string, pat: string, i: nat) {
    i + |pat| <= |s| && s[i..i + |pat|] == pat
  }

  /** The first occurrence of pat in s at or after position from. */
  function FindFrom(s: string, pat: string, from: nat): (r: Option<nat>)
    requires from <= |s|
    ensures r.Some? ==> from <= r.value && OccursAt(s, pat, r.value)
    ensures forall j :: from <= j && (r.None? || j < r.value) ==> !OccursAt(s, pat, j)
    decreases |s| - from
  {
    if from + |pat| > |s| then None
    else if s[from..from + |pat|] == pat then Some(from)
    else if from == |s| then None
    else FindFrom(s, pat, from + 1)
  }

  /** `s.replace(pat, rep)` with a string pattern: only the first occurrence is replaced. */
  function ReplaceFirst(s: string, pat: string, rep: string): string {
    match FindFrom(s, pat, 0)
    case None => s
    case Some(i) => s[..i] + rep + s[i + |pat|..]
  }

  const Www := "www."

  /**
   * `d` is `s` with its first occurrence of `pat` cut out, or `s` itself when
   * `pat` does not occur.
   */
  ghost predicate FirstOccurrenceRemoved(s: string, pat: string, d: string) {
    || ((forall j: nat :: !OccursAt(s, pat, j)) && d == s)
    || (exists i: nat :: OccursAt(s, pat, i) && (forall j: nat :: j < i ==> !OccursAt(s, pat, j))
                    && d == s[..i] + s[i + |pat|..])
  }

  /**
   * `extractDomain(url)`. `host` is the hostname the URL parser gives for `url`,
   * None when `new URL(url)` throws; then the raw URL is the domain.
   * The first "www." anywhere in the hostname is removed, not only a leading one.
   */
  function ExtractDomain(url: string, host: Option<string>): (d: string)
    ensures host.None? ==> d == url
    ensures host.Some? ==> FirstOccurrenceRemoved(host.value, Www, d)
  {
    match host
    case None => url
    case Some(h) =>
      ReplaceFirstRemoves(h, Www);
      ReplaceFirst(h, Www, "")
  }

  lemma ReplaceFirstRemoves(s: string, pat: string)
    ensures FirstOccurrenceRemoved(s, pat, ReplaceFirst(s, pat, ""))
  {
    match FindFrom(s, pat, 0)
    case None =>
    case Some(i) =>
      assert ReplaceFirst(s, pat, "") == s[..i] + s[i + |pat|..];
  }

  lemma ExtractDomainLeadingWww(url: string, rest: string)
    ensures ExtractDomain(url, Some(Www + rest)) == rest
  {
    var h := Www + rest;
    assert OccursAt(h, Www, 0);
  }

  /** A "www." inside the hostname is removed too. */
  lemma ExtractDomainInnerWww()
    ensures ExtractDomain("https://m.www.bbc.com/", Some("m.www.bbc.com")) == "m.bbc.com"
  {
    var h := "m.www.bbc.com";
    assert h[2..6] == Www;
    assert h[1] != 'w' && h[0] != 'w';
    assert FindFrom(h, Www, 2) == Some(2);
    assert FindFrom(h, Www, 1) == Some(2);
    assert FindFrom(h, Www, 0) == Some(2);
    assert h[..2] + h[6..] == "m.bbc.com";
  }

  predicate StartsWith(s: string, prefix: string) {
    |prefix| <= |s| && s[..|prefix|] == prefix
  }

  /**
   * A tab's URL is tracked (and shown in the popup) when it is present (non-empty,
   * so truthy) and is not an internal `chrome://` page.
   */
  predicate Trackable(url: string) {
    url != "" && !StartsWith(url, "chrome://")
  }

  /** The characters `.` in a JavaScript regular expression does not match. */
  predicate IsLineTerminator(c: char) {
    c == '\n' || c == '\r' || c == '\U{2028}' || c == '\U{2029}'
  }

  /** `c.toUpperCase()` on ASCII letters. */
  function ToUpper(c: char): char {
    if 'a' <= c <= 'z' then (c as int - 32) as char else c
  }

  /** Where the regular expression `/\..+/` first matches in t, at or after from. */
  function DotRunFrom(t: string, from: nat): (r: Option<nat>)
    requires from <= |t|
    ensures r.Some? ==> from <= r.value && r.value + 1 < |t| && t[r.value] == '.' && !IsLineTerminator(t[r.value + 1])
    ensures forall j :: from <= j && j + 1 < |t| && (r.None? || j < r.value) ==> t[j] != '.' || IsLineTerminator(t[j + 1])
    decreases |t| - from
  {
    if from + 1 >= |t| then None
    else if t[from] == '.' && !IsLineTerminator(t[from + 1]) then Some(from)
    else DotRunFrom(t, from + 1)
  }

  /** Where the greedy `.+` starting at from stops: the next line terminator or the end. */
  function RunEnd(t: string, from: nat): (e: nat)
    requires from <= |t|
    ensures from <= e <= |t|
    ensures forall j :: from <= j < e ==> !IsLineTerminator(t[j])
    ensures e < |t| ==> IsLineTerminator(t[e])
    decreases |t| - from
  {
    if from == |t| || IsLineTerminator(t[from]) then from else RunEnd(t, from + 1)
  }

  /** `t.replace(/\..+/, '')`. */
  function StripDotRun(t: string): string {
    match DotRunFrom(t, 0)
    case None => t
    case Some(i) => t[..i] + t[RunEnd(t, i + 1)..]
  }

  /** `formatDomain(domain)`: first character upper-cased, then the rest up to its first dot. */
  function FormatDomain(domain: string): string {
    if domain == "" then "" else [ToUpper(domain[0])] + StripDotRun(domain[1..])
  }

  predicate NoLineTerminator(s: string) {
    forall i :: 0 <= i < |s| ==> !IsLineTerminator(s[i])
  }

  /**
   * On a hostname (no line breaks) `formatDomain` keeps the upper-cased first
   * character and a prefix of the rest: everything before the first dot that is
   * not the last character. Nothing is cut only when there is no such dot.
   */
  lemma FormatDomainOfHostname(domain: string)
    requires domain != "" && NoLineTerminator(domain)
    ensures var r := FormatDomain(domain);
      && 1 <= |r| <= |domain|
      && r[0] == ToUpper(domain[0])
      && r[1..] == domain[1..|r|]
      && (|r| < |domain| ==> domain[|r|] == '.' && forall j :: 1 <= j < |r| ==> r[j] != '.')
      && (|r| == |domain| <==> forall j :: 1 <= j < |domain| - 1 ==> domain[j] != '.')
  {
    var t := domain[1..];
    var r := FormatDomain(domain);
    match DotRunFrom(t, 0)
    case None =>
      assert r == [ToUpper(domain[0])] + t;
      forall j | 1 <= j < |domain| - 1 ensures domain[j] != '.' {
        assert t[j - 1] == domain[j];
        assert !IsLineTerminator(t[j]);
      }
    case Some(i) =>
      assert t[i + 1] == domain[i + 2];
      var e := RunEnd(t, i + 1);
      assert NoLineTerminator(t) by {
        forall k | 0 <= k < |t| ensures !IsLineTerminator(t[k]) { assert t[k] == domain[k + 1]; }
      }
      assert e == |t|;
      assert StripDotRun(t) == t[..i];
      assert r == [ToUpper(domain[0])] + t[..i];
      assert domain[i + 1] == '.';
      forall j | 1 <= j < |r| ensures r[j] != '.' {
        assert r[j] == t[j - 1];
        assert t[j] == domain[j + 1];
        assert !IsLineTerminator(t[j]);
      }
  }

  lemma FormatDomainExample()
    ensures FormatDomain("github.com") == "Github"
  {
    var d, t := "github.com", "ithub.com";
    assert d[1..] == t;
    assert DotRunFrom(t, 0) == Some(5);
    assert RunEnd(t, 6) == 9;
    assert StripDotRun(t) == t[..5];
    assert ToUpper(d[0]) == 'G';
  }
}
