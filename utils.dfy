/**
 * Pure helpers of the browser client (js/utils.js): HTML escaping, the battery
 * CSS class, the member colour palette and the relative part of a timestamp.
 */
module Utils {
  import opened Wrappers
  import opened Text
  import opened Records

  // ------------------------------------------------------------------
  // HTML escaping
  // ------------------------------------------------------------------

  /** The characters the escape map covers. */
  predicate IsSpecial(c: char) {
    c == '&' || c == '<' || c == '>' || c == '"' || c == '\''
  }

  /** The replacement for one character: its entity, or the character itself. */
  function EscapeChar(c: char): (r: string)
    ensures !IsSpecial(c) ==> r == [c]
    ensures IsSpecial(c) ==> |r| >= 4 && r[0] == '&'
  {
    match c
    case '&' => "&amp;"
    case '<' => "&lt;"
    case '>' => "&gt;"
    case '"' => "&quot;"
    case '\'' => "&#039;"
    case _ => [c]
  }

  /** `String(text).replace(/[&<>"']/g, ...)` on a string. */
  function Escape(s: string): string {
    if s == [] then [] else EscapeChar(s[0]) + Escape(s[1..])
  }

  /** `escapeHtml`: null and undefined (None) give the empty string. */
  function EscapeHtml(text: Option<string>): (r: string)
    ensures text.None? ==> r == []
  {
    match text
    case None => []
    case Some(s) => Escape(s)
  }

  /** No character of r can open a tag or end an attribute value. */
  predicate NoMarkup(r: string) {
    forall i :: 0 <= i < |r| ==> r[i] != '<' && r[i] != '>' && r[i] != '"' && r[i] != '\''
  }

  predicate StartsWith(r: string, p: string) {
    |p| <= |r| && r[..|p|] == p
  }

  /** One of the five entities begins at position i of r. */
  predicate EntityAt(r: string, i: nat)
    requires i <= |r|
  {
    var t := r[i..];
    StartsWith(t, "&amp;") || StartsWith(t, "&lt;") || StartsWith(t, "&gt;") ||
    StartsWith(t, "&quot;") || StartsWith(t, "&#039;")
  }

  /** The escaped text contains none of `<`, `>`, `"`, `'`. */
  lemma {:induction false} EscapeNoMarkup(s: string)
    ensures NoMarkup(Escape(s))
  {
    if s != [] {
      EscapeNoMarkup(s[1..]);
      var a, b := EscapeChar(s[0]), Escape(s[1..]);
      assert NoMarkup(a);
      forall i | 0 <= i < |a + b|
        ensures (a + b)[i] != '<' && (a + b)[i] != '>' && (a + b)[i] != '"' && (a + b)[i] != '\''
      {
        if i < |a| { assert (a + b)[i] == a[i]; } else { assert (a + b)[i] == b[i - |a|]; }
      }
    }
  }

  /** Every `&` of the escaped text begins one of the five entities. */
  lemma {:induction false} EscapeAmpersands(s: string)
    ensures forall i :: 0 <= i < |Escape(s)| && Escape(s)[i] == '&' ==> EntityAt(Escape(s), i)
  {
    if s != [] {
      EscapeAmpersands(s[1..]);
      var a, b := EscapeChar(s[0]), Escape(s[1..]);
      forall i | 0 <= i < |a + b| && (a + b)[i] == '&' ensures EntityAt(a + b, i) {
        if i < |a| {
          assert (a + b)[i] == a[i];
          assert i == 0 && IsSpecial(s[0]);
          assert (a + b)[0..][..|a|] == a;
        } else {
          assert (a + b)[i] == b[i - |a|];
          assert (a + b)[i..] == b[i - |a|..];
        }
      }
    }
  }

  /** Text without special characters is its own escape. */
  lemma {:induction false} EscapePlain(s: string)
    requires forall i :: 0 <= i < |s| ==> !IsSpecial(s[i])
    ensures Escape(s) == s
  {
    if s != [] {
      EscapePlain(s[1..]);
      assert s == [s[0]] + s[1..];
    }
  }

  /** Decoding the five entities, left to right; the reference the escape is checked against. */
  function Unescape(r: string): string
    decreases |r|
  {
    if r == [] then []
    else if StartsWith(r, "&amp;") then "&" + Unescape(r[5..])
    else if StartsWith(r, "&lt;") then "<" + Unescape(r[4..])
    else if StartsWith(r, "&gt;") then ">" + Unescape(r[4..])
    else if StartsWith(r, "&quot;") then "\"" + Unescape(r[6..])
    else if StartsWith(r, "&#039;") then "'" + Unescape(r[6..])
    else [r[0]] + Unescape(r[1..])
  }

  /** r does not start with p when they differ at position i. */
  lemma DiffersAt(r: string, p: string, i: nat)
    requires i < |p| && i < |r| && r[i] != p[i]
    ensures !StartsWith(r, p)
  {
    if |p| <= |r| {
      assert r[..|p|][i] == r[i];
    }
  }

  /** r = e + u starts with e, and what follows e is u. */
  lemma Follows(e: string, u: string)
    ensures StartsWith(e + u, e) && (e + u)[|e|..] == u
  {
    assert (e + u)[..|e|] == e;
  }

  /** Decoding an escaped character in front of any text gives the character back. */
  lemma UnescapeChar(c: char, u: string)
    ensures Unescape(EscapeChar(c) + u) == [c] + Unescape(u)
  {
    var e := EscapeChar(c);
    var r := e + u;
    Follows(e, u);
    if c == '&' {
    } else if c == '<' {
      DiffersAt(r, "&amp;", 1);
    } else if c == '>' {
      DiffersAt(r, "&amp;", 1);
      DiffersAt(r, "&lt;", 1);
    } else if c == '"' {
      DiffersAt(r, "&amp;", 1);
      DiffersAt(r, "&lt;", 1);
      DiffersAt(r, "&gt;", 1);
    } else if c == '\'' {
      DiffersAt(r, "&amp;", 1);
      DiffersAt(r, "&lt;", 1);
      DiffersAt(r, "&gt;", 1);
      DiffersAt(r, "&quot;", 1);
    } else {
      DiffersAt(r, "&amp;", 0);
      DiffersAt(r, "&lt;", 0);
      DiffersAt(r, "&gt;", 0);
      DiffersAt(r, "&quot;", 0);
      DiffersAt(r, "&#039;", 0);
      assert r[1..] == u;
    }
  }

  /** Decoding the escaped text recovers the input: escaping loses nothing. */
  lemma {:induction false} EscapeRoundTrip(s: string)
    ensures Unescape(Escape(s)) == s
  {
    if s != [] {
      UnescapeChar(s[0], Escape(s[1..]));
      EscapeRoundTrip(s[1..]);
      assert s == [s[0]] + s[1..];
    }
  }

  // ------------------------------------------------------------------
  // Battery class
  // ------------------------------------------------------------------

  /** `getBatteryClass`; a missing level (undefined compares false) lands in 'battery-high'. */
  function BatteryClass(level: Option<int>): (cls: string)
    ensures level.Some? && level.value <= 20 ==> cls == "battery-low"
    ensures level.Some? && 20 < level.value <= 50 ==> cls == "battery-mid"
    ensures (level.None? || level.value > 50) ==> cls == "battery-high"
  {
    if level.Some? && level.value <= 20 then "battery-low"
    else if level.Some? && level.value <= 50 then "battery-mid"
    else "battery-high"
  }

  /** low < mid < high */
  function BatteryRank(cls: string): nat {
    if cls == "battery-low" then 0 else if cls == "battery-mid" then 1 else 2
  }

  /** A fuller battery never gets a lower class. */
  lemma BatteryMonotone(a: int, b: int)
    requires a <= b
    ensures BatteryRank(BatteryClass(Some(a))) <= BatteryRank(BatteryClass(Some(b)))
  {
  }

  // ------------------------------------------------------------------
  // Member colours
  // ------------------------------------------------------------------

  datatype Color = Color(name: string, hex: string, icon: string)

  const ICON_BASE: string := "https://raw.githubusercontent.com/pointhi/leaflet-color-markers/master/img/marker-icon-2x-"

  /** The palette in its fixed order; cyan and indigo reuse the blue and violet markers. */
  const MEMBER_COLORS: seq<Color> := [
    Color("blue", "#2A81CB", ICON_BASE + "blue.png"),
    Color("red", "#CB2B3E", ICON_BASE + "red.png"),
    Color("green", "#2AAD27", ICON_BASE + "green.png"),
    Color("orange", "#CB8427", ICON_BASE + "orange.png"),
    Color("yellow", "#CAC428", ICON_BASE + "yellow.png"),
    Color("violet", "#9C2BCB", ICON_BASE + "violet.png"),
    Color("grey", "#7B7B7B", ICON_BASE + "grey.png"),
    Color("black", "#3D3D3D", ICON_BASE + "black.png"),
    Color("cyan", "#1abc9c", ICON_BASE + "blue.png"),
    Color("indigo", "#3f51b5", ICON_BASE + "violet.png")
  ]

  /** `getMemberColorByIndex`: a negative index gets the first colour, others wrap around. */
  function ColorByIndex(index: int): (c: Color)
    ensures index < 0 ==> c == MEMBER_COLORS[0]
    ensures index >= 0 ==> c == MEMBER_COLORS[index % |MEMBER_COLORS|]
  {
    if index < 0 then MEMBER_COLORS[0] else MEMBER_COLORS[index % |MEMBER_COLORS|]
  }

  /** Colours repeat every ten members. */
  lemma ColorsPeriodic(index: int)
    requires index >= 0
    ensures ColorByIndex(index + 10) == ColorByIndex(index)
  {
    assert (index + 10) % 10 == index % 10;
  }

  /** `locations.findIndex(m => m.email === email)`: the first match, or -1. */
  function FindIndex(locations: seq<Member>, email: string): (i: int)
    ensures -1 <= i < |locations|
    ensures i >= 0 ==> locations[i].email == email
    ensures forall j :: 0 <= j < (if i < 0 then |locations| else i) ==> locations[j].email != email
  {
    if locations == [] then -1
    else if locations[0].email == email then 0
    else
      var k := FindIndex(locations[1..], email);
      if k < 0 then -1 else k + 1
  }

  /** `getMemberColor`; a missing locations array is None, while an empty one is truthy. */
  function MemberColor(email: string, locations: Option<seq<Member>>): (c: Color)
    ensures email == [] || locations.None? ==> c == MEMBER_COLORS[0]
  {
    if email == [] || locations.None? then MEMBER_COLORS[0]
    else ColorByIndex(FindIndex(locations.value, email))
  }

  /** A listed member's colour is decided by the first record with that email. */
  lemma MemberColorOfListed(email: string, locations: seq<Member>, k: nat)
    requires email != [] && k < |locations| && locations[k].email == email
    requires forall j :: 0 <= j < k ==> locations[j].email != email
    ensures MemberColor(email, Some(locations)) == MEMBER_COLORS[k % 10]
  {
    var i := FindIndex(locations, email);
    assert i == k;
  }

  /** An unlisted member gets the first colour. */
  lemma MemberColorOfUnlisted(email: string, locations: seq<Member>)
    requires forall j :: 0 <= j < |locations| ==> locations[j].email != email
    ensures MemberColor(email, Some(locations)) == MEMBER_COLORS[0]
  {
  }

  // ------------------------------------------------------------------
  // Relative time
  // ------------------------------------------------------------------

  /** The relative part of `formatRelativeTime`, for diff = now - timestamp in seconds. */
  datatype Relative = JustNow | MinutesAgo(n: nat) | HoursAgo(n: nat) | DaysAgo(n: nat)

  function RelativeBucket(diff: int): (r: Relative)
    ensures r.JustNow? <==> diff < 60
    ensures r.MinutesAgo? ==> 1 <= r.n < 60 && r.n * 60 <= diff < (r.n + 1) * 60
    ensures r.HoursAgo? ==> 1 <= r.n < 24 && r.n * 3600 <= diff < (r.n + 1) * 3600
    ensures r.DaysAgo? ==> 1 <= r.n && r.n * 86400 <= diff < (r.n + 1) * 86400
    ensures r.MinutesAgo? <==> 60 <= diff < 3600
    ensures r.HoursAgo? <==> 3600 <= diff < 86400
  {
    if diff < 60 then JustNow
    else if diff < 3600 then MinutesAgo(diff / 60)
    else if diff < 86400 then HoursAgo(diff / 3600)
    else DaysAgo(diff / 86400)
  }

  /** The text shown in parentheses after the clock time. */
  function RelativeText(r: Relative): string {
    match r
    case JustNow => "Just now"
    case MinutesAgo(n) => NatToString(n) + "m ago"
    case HoursAgo(n) => NatToString(n) + "h ago"
    case DaysAgo(n) => NatToString(n) + "d ago"
  }
}
