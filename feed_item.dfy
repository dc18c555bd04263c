/**
 * `formatDuration` of the feed item: the time part of an ISO 8601 duration
 * (`PT[nH][nM][nS]`, the designator format of section 4.4.3.2 of
 * ISO 8601:2004) becomes `[hh:]mm:ss`. The regular expression
 * `/PT(?:(\d+)H)?(?:(\d+)M)?(?:(\d+)S)?/` is modelled as a scan from the first
 * "PT" of the input.
 */
module FeedItem {
  import opened Wrappers
  import opened Text

  predicate PTAt(s: string, k: int) {
    0 <= k && k + 1 < |s| && s[k] == 'P' && s[k + 1] == 'T'
  }

  /** Where the leftmost match starts: the first "PT" at or after `i`. */
  function IndexOfPTFrom(s: string, i: nat): (r: Option<nat>)
    ensures r.Some? ==> i <= r.value && PTAt(s, r.value)
    ensures r.Some? ==> forall k :: i <= k < r.value ==> !PTAt(s, k)
    ensures r.None? <==> forall k :: i <= k < |s| ==> !PTAt(s, k)
    decreases |s| - i
  {
    if i + 1 >= |s| then None
    else if PTAt(s, i) then Some(i)
    else IndexOfPTFrom(s, i + 1)
  }

  function IndexOfPT(s: string): Option<nat> {
    IndexOfPTFrom(s, 0)
  }

  /** The length of the run of digits that starts at `i` (`\d+` is greedy). */
  function DigitRun(s: string, i: nat): (n: nat)
    requires i <= |s|
    ensures i + n <= |s|
    ensures forall k :: i <= k < i + n ==> IsDigit(s[k])
    ensures i + n < |s| ==> !IsDigit(s[i + n])
    decreases |s| - i
  {
    if i < |s| && IsDigit(s[i]) then 1 + DigitRun(s, i + 1) else 0
  }

  /**
   * The optional group `(?:(\d+)X)?` at the start of `s`: the digits and the
   * text after the designator, or no capture and `s` unchanged.
   */
  function Designated(s: string, designator: char): (r: (Option<string>, string))
    ensures r.0.None? ==> r.1 == s
    ensures r.0.Some? ==>
      && |r.0.value| > 0 && AllDigits(r.0.value)
      && s == r.0.value + [designator] + r.1
  {
    var n := DigitRun(s, 0);
    if n > 0 && n < |s| && s[n] == designator then
      assert s == s[..n] + [designator] + s[n + 1..];
      (Some(s[..n]), s[n + 1..])
    else (None, s)
  }

  /** The three capture groups of a match. */
  datatype TimeParts = TimeParts(hours: Option<string>, minutes: Option<string>, seconds: Option<string>)

  /** The three optional groups, read in order from the start of `s`. */
  function GroupsOf(s: string): TimeParts {
    var hours := Designated(s, 'H');
    var minutes := Designated(hours.1, 'M');
    var seconds := Designated(minutes.1, 'S');
    TimeParts(hours.0, minutes.0, seconds.0)
  }

  /** `exec`: no match without a "PT", otherwise the groups read after the first one. */
  function MatchDuration(s: string): Option<TimeParts> {
    match IndexOfPT(s)
    case None => None
    case Some(p) => Some(GroupsOf(s[p + 2..]))
  }

  /** `s.padStart(2, "0")`: never shortens. */
  function PadStart2(s: string): (r: string)
    ensures |r| == if |s| < 2 then 2 else |s|
    ensures r[|r| - |s|..] == s
    ensures forall k :: 0 <= k < |r| - |s| ==> r[k] == '0'
  {
    if |s| >= 2 then s else seq(2 - |s|, _ => '0') + s
  }

  /** `hours ++ minutes ++ ":" ++ seconds`, minutes and seconds defaulting to "0". */
  function Clock(p: TimeParts): string {
    var hours := if p.hours.Some? then PadStart2(p.hours.value) + ":" else "";
    var minutes := PadStart2(if p.minutes.Some? then p.minutes.value else "0");
    var seconds := PadStart2(if p.seconds.Some? then p.seconds.value else "0");
    hours + minutes + ":" + seconds
  }

  function Colons(s: string): nat {
    if s == [] then 0 else (if s[0] == ':' then 1 else 0) + Colons(s[1..])
  }

  lemma {:induction false} ColonsAppend(a: string, b: string)
    ensures Colons(a + b) == Colons(a) + Colons(b)
  {
    if a != [] {
      assert (a + b)[1..] == a[1..] + b;
      ColonsAppend(a[1..], b);
    } else {
      assert a + b == b;
    }
  }

  lemma {:induction false} ColonsOfDigits(s: string)
    requires AllDigits(s)
    ensures Colons(s) == 0
  {
    if s != [] {
      ColonsOfDigits(s[1..]);
    }
  }

  lemma PadStart2Digits(s: string)
    requires AllDigits(s)
    ensures AllDigits(PadStart2(s))
  {
  }

  predicate DigitsOrColons(s: string) {
    forall k :: 0 <= k < |s| ==> IsDigit(s[k]) || s[k] == ':'
  }

  lemma DigitsOrColonsAppend(a: string, b: string)
    requires DigitsOrColons(a) && DigitsOrColons(b)
    ensures DigitsOrColons(a + b)
  {
    forall k | 0 <= k < |a + b| ensures IsDigit((a + b)[k]) || (a + b)[k] == ':' {
      if k < |a| {
        assert (a + b)[k] == a[k];
      } else {
        assert (a + b)[k] == b[k - |a|];
      }
    }
  }

  /** A padded group: digits only, no colon. */
  lemma PaddedGroup(s: string)
    requires AllDigits(s)
    ensures DigitsOrColons(PadStart2(s)) && Colons(PadStart2(s)) == 0
  {
    var r := PadStart2(s);
    forall k | 0 <= k < |r| ensures IsDigit(r[k]) {
      if k >= |r| - |s| {
        assert r[k] == r[|r| - |s|..][k - (|r| - |s|)];
      }
    }
    ColonsOfDigits(r);
  }

  /** Two segments joined by a colon. */
  lemma Joined(a: string, b: string)
    requires DigitsOrColons(a) && DigitsOrColons(b)
    ensures DigitsOrColons(a + ":" + b) && Colons(a + ":" + b) == Colons(a) + Colons(b) + 1
  {
    DigitsOrColonsAppend(a, ":");
    ColonsAppend(a, ":");
    DigitsOrColonsAppend(a + ":", b);
    ColonsAppend(a + ":", b);
  }

  /**
   * The clock of well-formed groups is digits and colons only, with one colon
   * for `mm:ss` and two when there is an hours field.
   */
  lemma ClockShape(p: TimeParts)
    requires p.hours.Some? ==> AllDigits(p.hours.value)
    requires p.minutes.Some? ==> AllDigits(p.minutes.value)
    requires p.seconds.Some? ==> AllDigits(p.seconds.value)
    ensures DigitsOrColons(Clock(p))
    ensures Colons(Clock(p)) == if p.hours.Some? then 2 else 1
  {
    assert AllDigits("0");
    var m := if p.minutes.Some? then p.minutes.value else "0";
    var s := if p.seconds.Some? then p.seconds.value else "0";
    PaddedGroup(m);
    PaddedGroup(s);
    if p.hours.Some? {
      var hh := PadStart2(p.hours.value);
      PaddedGroup(p.hours.value);
      Joined(hh, PadStart2(m));
      Joined(hh + ":" + PadStart2(m), PadStart2(s));
    } else {
      assert "" + PadStart2(m) == PadStart2(m);
      Joined(PadStart2(m), PadStart2(s));
    }
  }

  lemma SplitAt(a: string, b: string)
    ensures (a + b)[..|a|] == a && (a + b)[|a|..] == b
  {
  }

  /** The clock ends with a colon and the padded seconds, which never lose a digit. */
  lemma ClockSeconds(p: TimeParts)
    ensures var ss := PadStart2(if p.seconds.Some? then p.seconds.value else "0");
      && |Clock(p)| > |ss|
      && Clock(p)[|Clock(p)| - |ss| - 1..] == ":" + ss
  {
    var hours := if p.hours.Some? then PadStart2(p.hours.value) + ":" else "";
    var mm := PadStart2(if p.minutes.Some? then p.minutes.value else "0");
    var ss := PadStart2(if p.seconds.Some? then p.seconds.value else "0");
    TrailingField(hours, mm, ss, Clock(p));
  }

  /** The last field of `h + m + ":" + s` is `s`, after a colon. */
  lemma TrailingField(h: string, m: string, s: string, c: string)
    requires c == h + m + ":" + s
    ensures |c| > |s| && c[|c| - |s| - 1..] == ":" + s
  {
    var left := h + m;
    assert c == left + (":" + s);
    SplitAt(left, ":" + s);
  }

  /** With an hours group the clock starts with the padded hours and a colon; without, there is no hours field. */
  lemma ClockHours(p: TimeParts)
    ensures p.hours.Some? ==>
      var hh := PadStart2(p.hours.value);
      |Clock(p)| > |hh| && Clock(p)[..|hh| + 1] == hh + ":"
    ensures p.hours.None? ==>
      Clock(p) == PadStart2(if p.minutes.Some? then p.minutes.value else "0") + ":"
                  + PadStart2(if p.seconds.Some? then p.seconds.value else "0")
  {
    var mm := PadStart2(if p.minutes.Some? then p.minutes.value else "0");
    var ss := PadStart2(if p.seconds.Some? then p.seconds.value else "0");
    if p.hours.Some? {
      LeadingField(PadStart2(p.hours.value) + ":", mm, ss);
    } else {
      assert "" + mm == mm;
    }
  }

  /** The first field of `h + m + ":" + s` is `h`. */
  lemma LeadingField(h: string, m: string, s: string)
    ensures (h + m + ":" + s)[..|h|] == h
  {
    var x := h + m + ":";
    assert (x + s)[..|h|] == x[..|h|];
    assert x[..|h|] == (h + m)[..|h|];
  }

  /** `formatDuration`. */
  function FormatDuration(duration: string): (r: string)
    ensures r == "" <==> IndexOfPT(duration).None?
    ensures r != "" ==> DigitsOrColons(r)
    ensures r != "" ==> Colons(r) == if MatchDuration(duration).value.hours.Some? then 2 else 1
  {
    match MatchDuration(duration)
    case None => ""
    case Some(p) =>
      ClockShape(p);
      Clock(p)
  }

  // ---------------------------------------------------------------------
  // A duration built from its parts is read back as those parts

  /** `n` followed by the designator, or nothing for an absent part. */
  function Designator(x: Option<string>, d: char): string {
    if x.Some? then x.value + [d] else ""
  }

  /** The ISO 8601 time part `PT[hH][mM][sS]`. */
  function IsoTime(p: TimeParts): string {
    "PT" + Designator(p.hours, 'H') + Designator(p.minutes, 'M') + Designator(p.seconds, 'S')
  }

  predicate WellFormedPart(x: Option<string>) {
    x.Some? ==> |x.value| > 0 && AllDigits(x.value)
  }

  predicate WellFormed(p: TimeParts) {
    WellFormedPart(p.hours) && WellFormedPart(p.minutes) && WellFormedPart(p.seconds)
  }

  /** A run of digits ended by a non-digit is read in full. */
  lemma {:induction false} DigitRunOf(t: string, x: string, j: nat)
    requires AllDigits(x) && j <= |x| <= |t| && t[..|x|] == x
    requires |x| < |t| ==> !IsDigit(t[|x|])
    ensures DigitRun(t, j) == |x| - j
    decreases |x| - j
  {
    if j < |x| {
      assert t[j] == x[j];
      DigitRunOf(t, x, j + 1);
    }
  }

  /** Nothing at the start of `rest` reads as a group with designator `d`. */
  predicate NoGroup(rest: string, d: char) {
    var n := DigitRun(rest, 0);
    !(n > 0 && n < |rest| && rest[n] == d)
  }

  /** The group for `d` reads exactly the part written for it, and leaves the rest. */
  lemma DesignatedOn(x: Option<string>, d: char, rest: string)
    requires WellFormedPart(x) && !IsDigit(d)
    requires x.None? ==> NoGroup(rest, d)
    ensures Designated(Designator(x, d) + rest, d) == (x, rest)
  {
    var t := Designator(x, d) + rest;
    if x.Some? {
      assert t[..|x.value|] == x.value;
      assert t[|x.value|] == d;
      DigitRunOf(t, x.value, 0);
      assert t[..|x.value|] == x.value && t[|x.value| + 1..] == rest;
    } else {
      assert t == rest;
    }
  }

  /** A later part, written with a different designator, never reads as group `d`. */
  lemma LaterPartsNoGroup(y: Option<string>, dy: char, z: Option<string>, dz: char, d: char)
    requires WellFormedPart(y) && WellFormedPart(z)
    requires !IsDigit(dy) && !IsDigit(dz) && d != dy && d != dz
    ensures NoGroup(Designator(y, dy) + Designator(z, dz), d)
  {
    var rest := Designator(y, dy) + Designator(z, dz);
    if y.Some? {
      assert rest[..|y.value|] == y.value && rest[|y.value|] == dy;
      DigitRunOf(rest, y.value, 0);
    } else if z.Some? {
      assert rest == z.value + [dz];
      assert rest[..|z.value|] == z.value && rest[|z.value|] == dz;
      DigitRunOf(rest, z.value, 0);
    } else {
      assert rest == [];
    }
  }

  /** Reading the groups of written parts gives the parts back. */
  lemma GroupsOfWritten(p: TimeParts)
    requires WellFormed(p)
    ensures GroupsOf(IsoTime(p)[2..]) == p
  {
    var H, M, S := Designator(p.hours, 'H'), Designator(p.minutes, 'M'), Designator(p.seconds, 'S');
    assert IsoTime(p)[2..] == H + (M + S);
    LaterPartsNoGroup(p.minutes, 'M', p.seconds, 'S', 'H');
    DesignatedOn(p.hours, 'H', M + S);
    LaterPartsNoGroup(p.seconds, 'S', None, 'H', 'M');
    assert S + Designator(None, 'H') == S;
    DesignatedOn(p.minutes, 'M', S);
    assert S + "" == S;
    DesignatedOn(p.seconds, 'S', "");
  }

  /** Parsing the written parts gives them back. */
  lemma MatchIsoTime(p: TimeParts)
    requires WellFormed(p)
    ensures MatchDuration(IsoTime(p)) == Some(p)
  {
    assert PTAt(IsoTime(p), 0);
    GroupsOfWritten(p);
  }

  /** The round trip: a well-formed duration is formatted as the clock of its parts. */
  lemma FormatIsoTime(p: TimeParts)
    requires WellFormed(p)
    ensures FormatDuration(IsoTime(p)) == Clock(p)
  {
    MatchIsoTime(p);
  }

  // ---------------------------------------------------------------------
  // Only the text from the first "PT" is read

  /**
   * Text before the first "PT" never contributes: date designators (years,
   * months, weeks, days) are ignored, and "P1DT2H" has no "PT" at all.
   */
  lemma FromFirstPT(duration: string)
    requires IndexOfPT(duration).Some?
    ensures MatchDuration(duration) == MatchDuration(duration[IndexOfPT(duration).value..])
    ensures FormatDuration(duration) == FormatDuration(duration[IndexOfPT(duration).value..])
  {
    var k := IndexOfPT(duration).value;
    var s := duration[k..];
    assert PTAt(s, 0);
    assert s[2..] == duration[k + 2..];
  }

  // ---------------------------------------------------------------------
  // Examples

  /** A written duration is formatted as the clock of its parts. */
  lemma Example(p: TimeParts, duration: string, clock: string)
    requires WellFormed(p) && IsoTime(p) == duration && Clock(p) == clock
    ensures FormatDuration(duration) == clock
  {
    FormatIsoTime(p);
  }

  lemma ExampleFull()
    ensures FormatDuration("PT1H2M3S") == "01:02:03"
  {
    var p := TimeParts(Some("1"), Some("2"), Some("3"));
    assert WellFormed(p);
    assert IsoTime(p) == "PT1H2M3S";
    assert PadStart2("1") == "01" && PadStart2("2") == "02" && PadStart2("3") == "03";
    assert Clock(p) == "01:02:03";
    Example(p, "PT1H2M3S", "01:02:03");
  }

  lemma ExampleSeconds()
    ensures FormatDuration("PT45S") == "00:45"
  {
    var p := TimeParts(None, None, Some("45"));
    assert WellFormed(p);
    assert IsoTime(p) == "PT45S";
    assert PadStart2("0") == "00";
    assert Clock(p) == "00:45";
    Example(p, "PT45S", "00:45");
  }

  lemma ExampleEmpty()
    ensures FormatDuration("PT") == "00:00"
  {
    var p := TimeParts(None, None, None);
    assert IsoTime(p) == "PT";
    assert PadStart2("0") == "00";
    assert Clock(p) == "00:00";
    Example(p, "PT", "00:00");
  }

  /** Long groups are not cut: 125 minutes stay 125. */
  lemma ExampleLongMinutes()
    ensures FormatDuration("PT125M") == "125:00"
  {
    var p := TimeParts(None, Some("125"), None);
    assert WellFormed(p);
    assert IsoTime(p) == "PT125M";
    assert PadStart2("0") == "00";
    assert Clock(p) == "125:00";
    Example(p, "PT125M", "125:00");
  }

  /** A day designator puts a "D" between "P" and "T": there is no match. */
  lemma ExampleWithDays()
    ensures FormatDuration("P1DT2H3M4S") == ""
  {
    var d := "P1DT2H3M4S";
    assert forall k :: 0 <= k < |d| ==> !PTAt(d, k);
  }
}
