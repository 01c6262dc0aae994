/** Parsing of user-typed positions ("1:30", "90", "1h2m3s") into milliseconds and
    formatting of milliseconds as "m:ss" / "h:mm:ss" (bot/utils/time.py). */
module TimeFormat {
  import opened Wrappers
  import opened Strings

  /** The `ValueError` messages of `parse_time_to_ms`; `NotANumber` is the one raised by `int()`. */
  datatype TimeError = Empty | BadFormat | BadTime | NotANumber

  /** The capture groups of `^(?:(\d+)h)?(?:(\d+)m)?(?:(\d+)s)?$`. */
  datatype HmsMatch = HmsMatch(hours: Option<string>, minutes: Option<string>, seconds: Option<string>)

  predicate GroupOk(g: Option<string>)
  {
    g.Some? ==> IsDigits(g.value)
  }

  predicate WellFormed(m: HmsMatch)
  {
    GroupOk(m.hours) && GroupOk(m.minutes) && GroupOk(m.seconds)
  }

  /** The text an optional group `(?:(\d+)u)?` consumes. */
  function GroupText(g: Option<string>, unit: char): string
  {
    match g
    case None => ""
    case Some(d) => d + [unit]
  }

  /** The whole text a match with these groups covers. */
  function HmsText(m: HmsMatch): string
  {
    GroupText(m.hours, 'h') + GroupText(m.minutes, 'm') + GroupText(m.seconds, 's')
  }

  /** `int(group or 0)`. */
  function GroupValue(g: Option<string>): nat
    requires GroupOk(g)
  {
    match g
    case None => 0
    case Some(d) => DigitsValue(d)
  }

  /** Length of the run of digits `s` starts with. */
  function LeadingDigits(s: string): (k: nat)
    ensures k <= |s|
    ensures forall i :: 0 <= i < k ==> IsDigit(s[i])
    ensures k < |s| ==> !IsDigit(s[k])
  {
    if s != [] && IsDigit(s[0]) then 1 + LeadingDigits(s[1..]) else 0
  }

  /** Matches one optional group `(?:(\d+)unit)?` at the start of `s`: the digits taken and the rest. */
  function MatchGroup(s: string, unit: char): (r: (Option<string>, string))
    ensures GroupOk(r.0) && GroupText(r.0, unit) + r.1 == s
  {
    var k := LeadingDigits(s);
    if 0 < k < |s| && s[k] == unit then (Some(s[..k]), s[k + 1..]) else (None, s)
  }

  /** Matching `^(?:(\d+)h)?(?:(\d+)m)?(?:(\d+)s)?$` against `s`. A successful match returns
      well-formed groups that spell out `s` exactly. */
  function MatchHms(s: string): (r: Option<HmsMatch>)
    ensures r.Some? ==> WellFormed(r.value) && HmsText(r.value) == s
  {
    var (h, r1) := MatchGroup(s, 'h');
    var (m, r2) := MatchGroup(r1, 'm');
    var (x, r3) := MatchGroup(r2, 's');
    if r3 == [] then
      var a := GroupText(h, 'h');
      var b := GroupText(m, 'm');
      var c := GroupText(x, 's');
      assert r2 == c by {
        assert c + r3 == c;
      }
      assert s == a + (b + c);
      assert a + (b + c) == a + b + c;
      Some(HmsMatch(h, m, x))
    else None
  }

  /** The clock forms "mm:ss" and "hh:mm:ss" once `int()` has been applied to the fields. */
  function ClockToMs(h: Option<int>, m: Option<int>, s: Option<int>): (r: Result<int, TimeError>)
    ensures r.Success? ==> h.Some? && m.Some? && s.Some? && h.value >= 0 && m.value >= 0 && 0 <= s.value < 60
    ensures r.Success? ==> r.value == (h.value * 3600 + m.value * 60 + s.value) * 1000
    ensures h.Some? && m.Some? && s.Some? && h.value >= 0 && m.value >= 0 && 0 <= s.value < 60 ==> r.Success?
  {
    if h.None? || m.None? || s.None? then Failure(NotANumber)
    else if m.value < 0 || s.value < 0 || s.value >= 60 then Failure(BadTime)
    else if h.value < 0 then Failure(BadTime)
    else Success(SecondsToMs(h.value * 3600 + m.value * 60 + s.value))
  }

  /** `parse_time_to_ms`: every accepted position is a whole, non-negative number of seconds. */
  function ParseTimeToMs(value: string): (r: Result<int, TimeError>)
    ensures r.Success? ==> r.value >= 0 && r.value % 1000 == 0
    ensures Strip(value) == [] ==> r == Failure(Empty)
  {
    var raw := Strip(value);
    if raw == [] then Failure(Empty)
    else if ':' in raw then ParseClock(raw)
    else if IsDigits(raw) then Success(SecondsToMs(DigitsValue(raw)))
    else ParseUnits(raw)
  }

  /** The clock forms: two fields are minutes and seconds, three are hours, minutes and seconds. */
  function ParseClock(raw: string): (r: Result<int, TimeError>)
    ensures r.Success? ==> r.value >= 0 && r.value % 1000 == 0
    ensures r.Success? ==> |Split(raw, ':')| == 2 || |Split(raw, ':')| == 3
    ensures |Split(raw, ':')| != 2 && |Split(raw, ':')| != 3 ==> r == Failure(BadFormat)
  {
    var parts := Split(raw, ':');
    if |parts| == 2 then ClockToMs(Some(0), PyInt(parts[0]), PyInt(parts[1]))
    else if |parts| == 3 then ClockToMs(PyInt(parts[0]), PyInt(parts[1]), PyInt(parts[2]))
    else Failure(BadFormat)
  }

  /** The "XhYmZs" form, matched case-insensitively. */
  function ParseUnits(raw: string): (r: Result<int, TimeError>)
    ensures r.Success? ==> r.value >= 0 && r.value % 1000 == 0
  {
    match MatchHms(Lower(raw))
    case None => Failure(BadFormat)
    case Some(g) => Success(SecondsToMs(HmsSeconds(g)))
  }

  function SecondsToMs(seconds: nat): (ms: nat)
    ensures ms % 1000 == 0 && ms / 1000 == seconds
  {
    seconds * 1000
  }

  /** The number of seconds the groups of a match denote. */
  function HmsSeconds(g: HmsMatch): nat
    requires WellFormed(g)
  {
    GroupValue(g.hours) * 3600 + GroupValue(g.minutes) * 60 + GroupValue(g.seconds)
  }

  /** `f"{n:02d}"`. */
  function Pad2(n: nat): (r: string)
    ensures IsDigits(r) && DigitsValue(r) == n
    ensures n < 100 ==> |r| == 2
    ensures n < 10 ==> r[0] == '0'
    ensures n >= 10 ==> r == NatToString(n)
  {
    if n < 10 then
      var r := "0" + NatToString(n);
      assert r[..1] == "0" && r[..1][..0] == [];
      r
    else
      assert n < 100 ==> |NatToString(n / 10)| == 1 && |NatToString(n)| == 2;
      NatToString(n)
  }

  /** `format_ms`: whole seconds of `ms` (none when negative) as "h:mm:ss", or "m:ss" under an hour. */
  function FormatMs(ms: int): string
  {
    FormatSeconds(WholeSeconds(ms))
  }

  /** `max(0, ms // 1000)`. */
  function WholeSeconds(ms: int): (r: nat)
    ensures ms >= 0 ==> r * 1000 <= ms < r * 1000 + 1000
    ensures ms < 0 ==> r == 0
  {
    if ms / 1000 < 0 then 0 else ms / 1000
  }

  function FormatSeconds(total: nat): string
  {
    var h := total / 3600;
    var m := total % 3600 / 60;
    var s := total % 3600 % 60;
    if h > 0 then NatToString(h) + ":" + Pad2(m) + ":" + Pad2(s)
    else NatToString(m) + ":" + Pad2(s)
  }

  // ---------------------------------------------------------------------------
  // The regular expression

  lemma {:induction false} LeadingDigitsOfPrefix(d: string, t: string)
    requires forall i :: 0 <= i < |d| ==> IsDigit(d[i])
    requires t == [] || !IsDigit(t[0])
    ensures LeadingDigits(d + t) == |d|
  {
    if d == [] {
      assert d + t == t;
    } else {
      assert (d + t)[1..] == d[1..] + t;
      assert IsDigit((d + t)[0]);
      LeadingDigitsOfPrefix(d[1..], t);
    }
  }

  /** A group that is present is taken. */
  lemma MatchGroupPresent(d: string, unit: char, rest: string)
    requires IsDigits(d) && !IsDigit(unit)
    ensures MatchGroup(d + [unit] + rest, unit) == (Some(d), rest)
  {
    var s := d + [unit] + rest;
    assert s == d + ([unit] + rest);
    LeadingDigitsOfPrefix(d, [unit] + rest);
    assert s[|d|] == unit;
    assert s[..|d|] == d;
    assert s[|d| + 1..] == rest;
  }

  /** A group that is absent is skipped when what follows does not begin with digits and then `unit`. */
  lemma MatchGroupOf(g: Option<string>, unit: char, rest: string)
    requires GroupOk(g) && !IsDigit(unit)
    requires g.None? ==> var k := LeadingDigits(rest); !(0 < k < |rest| && rest[k] == unit)
    ensures MatchGroup(GroupText(g, unit) + rest, unit) == (g, rest)
  {
    if g.Some? {
      MatchGroupPresent(g.value, unit, rest);
    } else {
      assert GroupText(g, unit) + rest == rest;
    }
  }

  /** What follows the optional groups of a match never begins with digits and then `unit`
      unless `unit` is the letter of the first group present. */
  lemma NoFalseGroup(g: Option<string>, u: char, rest: string, unit: char)
    requires GroupOk(g) && !IsDigit(u) && u != unit
    requires g.None? ==> rest == []
    ensures var s := GroupText(g, u) + rest; var k := LeadingDigits(s); !(0 < k < |s| && s[k] == unit)
  {
    if g.Some? {
      var s := GroupText(g, u) + rest;
      assert s == g.value + ([u] + rest);
      LeadingDigitsOfPrefix(g.value, [u] + rest);
    } else {
      assert GroupText(g, u) + rest == [];
    }
  }

  /** Every text the regular expression describes is matched, with exactly its groups. */
  lemma MatchHmsComplete(m: HmsMatch)
    requires WellFormed(m)
    ensures MatchHms(HmsText(m)) == Some(m)
  {
    var ts := GroupText(m.seconds, 's');
    var tm := GroupText(m.minutes, 'm') + ts;
    assert HmsText(m) == GroupText(m.hours, 'h') + tm;
    // the minutes group is skipped only when absent, then the seconds text cannot pose as minutes
    if m.minutes.None? {
      assert tm == ts;
      NoFalseGroup(m.seconds, 's', [], 'm');
      assert ts == GroupText(m.seconds, 's') + [];
    }
    if m.hours.None? {
      if m.minutes.Some? {
        NoFalseGroup(m.minutes, 'm', ts, 'h');
      } else {
        NoFalseGroup(m.seconds, 's', [], 'h');
        assert tm == GroupText(m.seconds, 's') + [];
      }
    }
    MatchGroupOf(m.hours, 'h', tm);
    MatchGroupOf(m.minutes, 'm', ts);
    if m.seconds.None? {
      assert ts == GroupText(m.seconds, 's') + [];
    }
    MatchGroupOf(m.seconds, 's', []);
    assert ts + [] == ts;
  }

  // ---------------------------------------------------------------------------
  // The accepted forms

  lemma NoColon(s: string)
    requires forall i :: 0 <= i < |s| ==> IsDigit(s[i])
    ensures ':' !in s
  {
  }

  /** Plain digits, with any leading zeros and surrounding whitespace, are a number of seconds. */
  lemma ParseSeconds(s: string)
    requires IsDigits(Strip(s))
    ensures ParseTimeToMs(s) == Success(DigitsValue(Strip(s)) * 1000)
  {
    NoColon(Strip(s));
  }

  /** In particular the decimal text of `n` seconds reads back as `n` seconds. */
  lemma ParseSecondsText(n: nat)
    ensures ParseTimeToMs(NatToString(n)) == Success(n * 1000)
  {
    StripUnchanged(NatToString(n));
    ParseSeconds(NatToString(n));
  }

  lemma LowerOfHmsText(m: HmsMatch)
    requires WellFormed(m)
    ensures Lower(HmsText(m)) == HmsText(m)
  {
    var s := HmsText(m);
    forall i | 0 <= i < |s|
      ensures LowerChar(s[i]) == s[i]
    {
    }
  }

  /** Every character of a match text is a digit or one of the unit letters. */
  lemma HmsTextChars(m: HmsMatch)
    requires WellFormed(m)
    ensures forall i :: 0 <= i < |HmsText(m)| ==> IsDigit(HmsText(m)[i]) || HmsText(m)[i] in "hms"
  {
  }

  /** A non-empty match text is read by the unit form. */
  lemma HmsTextTakesUnitForm(m: HmsMatch)
    requires WellFormed(m) && HmsText(m) != []
    ensures ParseTimeToMs(HmsText(m)) == ParseUnits(HmsText(m))
  {
    var s := HmsText(m);
    HmsTextChars(m);
    HmsTextEndsWithUnit(m);
    assert !IsSpace(s[0]) && !IsSpace(s[|s| - 1]);
    StripUnchanged(s);
    assert ':' !in s by {
      forall i | 0 <= i < |s| ensures s[i] != ':' {
        assert IsDigit(s[i]) || s[i] in "hms";
      }
    }
    assert !IsDigit(s[|s| - 1]);
  }

  /** A non-empty match text ends with a unit letter. */
  lemma HmsTextEndsWithUnit(m: HmsMatch)
    requires HmsText(m) != []
    ensures HmsText(m)[|HmsText(m)| - 1] in "hms"
  {
    var h, mi, sc := GroupText(m.hours, 'h'), GroupText(m.minutes, 'm'), GroupText(m.seconds, 's');
    assert HmsText(m) == h + mi + sc;
    if sc != [] {
      assert HmsText(m)[|HmsText(m)| - 1] == sc[|sc| - 1] == 's';
    } else if mi != [] {
      assert HmsText(m)[|HmsText(m)| - 1] == mi[|mi| - 1] == 'm';
    } else {
      assert HmsText(m) == h && h[|h| - 1] == 'h';
    }
  }

  /** Any "XhYmZs" text, with each part optional, means X hours, Y minutes and Z seconds. */
  lemma ParseHms(m: HmsMatch)
    requires WellFormed(m) && HmsText(m) != []
    ensures ParseTimeToMs(HmsText(m)) == Success(HmsSeconds(m) * 1000)
  {
    HmsTextTakesUnitForm(m);
    LowerOfHmsText(m);
    MatchHmsComplete(m);
  }

  /** A stripped text with a colon takes the clock form. */
  lemma TakesClockForm(t: string)
    requires t != [] && !IsSpace(t[0]) && !IsSpace(t[|t| - 1]) && ':' in t
    ensures ParseTimeToMs(t) == ParseClock(t)
  {
    StripUnchanged(t);
  }

  /** A clock text of two digit fields is read as minutes and seconds. */
  lemma ParseTwoFields(a: string, b: string)
    requires IsDigits(a) && IsDigits(b)
    ensures ParseTimeToMs(a + ":" + b) == ClockToMs(Some(0), Some(DigitsValue(a)), Some(DigitsValue(b)))
  {
    var t := a + ":" + b;
    NoColon(a);
    NoColon(b);
    assert t == a + [':'] + b;
    SplitAtFirst(a, b, ':');
    SplitWithoutSeparator(b, ':');
    assert t[|a|] == ':';
    assert t[0] == a[0] && t[|t| - 1] == b[|b| - 1];
    TakesClockForm(t);
    PyIntOfDigits(a);
    PyIntOfDigits(b);
  }

  lemma SplitThreeFields(a: string, b: string, c: string)
    requires IsDigits(a) && IsDigits(b) && IsDigits(c)
    ensures Split(a + ":" + b + ":" + c, ':') == [a, b, c]
  {
    NoColon(a);
    NoColon(b);
    NoColon(c);
    assert a + ":" + b + ":" + c == a + [':'] + (b + [':'] + c);
    SplitAtFirst(a, b + [':'] + c, ':');
    SplitAtFirst(b, c, ':');
    SplitWithoutSeparator(c, ':');
  }

  /** A clock text of three digit fields is read as hours, minutes and seconds. */
  lemma ParseThreeFields(a: string, b: string, c: string)
    requires IsDigits(a) && IsDigits(b) && IsDigits(c)
    ensures ParseTimeToMs(a + ":" + b + ":" + c)
         == ClockToMs(Some(DigitsValue(a)), Some(DigitsValue(b)), Some(DigitsValue(c)))
  {
    var t := a + ":" + b + ":" + c;
    SplitThreeFields(a, b, c);
    assert t[|a|] == ':';
    assert t[0] == a[0] && t[|t| - 1] == c[|c| - 1];
    TakesClockForm(t);
    PyIntOfDigits(a);
    PyIntOfDigits(b);
    PyIntOfDigits(c);
  }

  /** `divmod(total, 3600)` and then `divmod(rem, 60)` split `total` into hours, minutes and seconds. */
  lemma HoursMinutesSeconds(total: nat)
    ensures total == (total / 3600) * 3600 + (total % 3600 / 60) * 60 + total % 3600 % 60
    ensures total % 3600 / 60 < 60 && total % 3600 % 60 < 60
  {
  }

  lemma ParseLongClock(h: nat, m: nat, s: nat)
    requires m < 60 && s < 60
    ensures ParseTimeToMs(NatToString(h) + ":" + Pad2(m) + ":" + Pad2(s)) == Success((h * 3600 + m * 60 + s) * 1000)
  {
    ParseThreeFields(NatToString(h), Pad2(m), Pad2(s));
    ClockValue(h, m, s);
  }

  lemma ParseShortClock(m: nat, s: nat)
    requires s < 60
    ensures ParseTimeToMs(NatToString(m) + ":" + Pad2(s)) == Success((m * 60 + s) * 1000)
  {
    var a, b := NatToString(m), Pad2(s);
    ParseTwoFields(a, b);
    assert ParseTimeToMs(a + ":" + b) == ClockToMs(Some(0), Some(m), Some(s));
    ShortClockValue(m, s);
  }

  lemma ShortClockValue(m: nat, s: nat)
    requires s < 60
    ensures ClockToMs(Some(0), Some(m), Some(s)) == Success((m * 60 + s) * 1000)
  {
  }

  lemma ClockValue(h: nat, m: nat, s: nat)
    requires s < 60
    ensures ClockToMs(Some(h), Some(m), Some(s)) == Success((h * 3600 + m * 60 + s) * 1000)
  {
  }

  lemma FormatSecondsThenParse(total: nat)
    ensures ParseTimeToMs(FormatSeconds(total)) == Success(total * 1000)
  {
    var h := total / 3600;
    var m := total % 3600 / 60;
    var s := total % 3600 % 60;
    HoursMinutesSeconds(total);
    var ms := total * 1000;
    if h > 0 {
      assert FormatSeconds(total) == NatToString(h) + ":" + Pad2(m) + ":" + Pad2(s);
      assert ms == (h * 3600 + m * 60 + s) * 1000;
      ParseLongClock(h, m, s);
    } else {
      assert FormatSeconds(total) == NatToString(m) + ":" + Pad2(s);
      assert ms == (m * 60 + s) * 1000;
      ParseShortClock(m, s);
    }
  }

  lemma SplitTwoFields(a: string, b: string)
    requires IsDigits(a) && IsDigits(b)
    ensures Split(a + ":" + b, ':') == [a, b]
  {
    NoColon(a);
    NoColon(b);
    assert a + ":" + b == a + [':'] + b;
    SplitAtFirst(a, b, ':');
    SplitWithoutSeparator(b, ':');
  }

  /** Seconds counted modulo an hour and then split by minutes agree with the plain minute and
      second counts. */
  lemma {:induction false} MinutesOfHour(total: nat)
    ensures total % 3600 / 60 == total / 60 % 60
    ensures total % 3600 % 60 == total % 60
  {
    var q, r := total / 3600, total % 3600;
    var m, s := r / 60, r % 60;
    assert total == (60 * q + m) * 60 + s;
    assert total / 60 == 60 * q + m;
    assert total % 60 == s;
  }

  /** The fields `format_ms` prints: the hours only when there are any, then the minutes and
      the seconds, each of these two as two digits when they follow another field. */
  lemma {:induction false} FormatSecondsFields(total: nat)
    ensures total >= 3600 ==>
              Split(FormatSeconds(total), ':') == [NatToString(total / 3600), Pad2(total / 60 % 60), Pad2(total % 60)]
    ensures total < 3600 ==> Split(FormatSeconds(total), ':') == [NatToString(total / 60), Pad2(total % 60)]
    ensures |Pad2(total / 60 % 60)| == 2 && |Pad2(total % 60)| == 2
  {
    MinutesOfHour(total);
    var h, m, s := total / 3600, total / 60 % 60, total % 60;
    assert m < 60 && s < 60;
    if total >= 3600 {
      assert h > 0;
      assert FormatSeconds(total) == NatToString(h) + ":" + Pad2(m) + ":" + Pad2(s);
      SplitThreeFields(NatToString(h), Pad2(m), Pad2(s));
    } else {
      assert h == 0 && total % 3600 == total && total / 60 < 60;
      assert FormatSeconds(total) == NatToString(total / 60) + ":" + Pad2(s);
      SplitTwoFields(NatToString(total / 60), Pad2(s));
    }
  }

  /** What `format_ms` prints, `parse_time_to_ms` reads back as the same whole seconds. */
  lemma FormatThenParse(ms: int)
    ensures ParseTimeToMs(FormatMs(ms)) == Success(WholeSeconds(ms) * 1000)
  {
    FormatSecondsThenParse(WholeSeconds(ms));
  }
}
