/**
 * Naive local timestamps, as the front end writes them with its `pad` helper:
 * `YYYY-MM-DDTHH:mm` (date-time pickers) and `YYYY-MM-DDTHH:mm:ss` (the
 * "recent appointments" lower bound). The calendar reading itself comes from
 * JavaScript's `Date` getters and is taken here as given integers.
 */
module Timestamp {
  import opened Types
  import opened Text

  /**
   * A local wall-clock reading: `getFullYear()`, `getMonth()` (0-based),
   * `getDate()`, `getHours()`, `getMinutes()`, `getSeconds()`.
   */
  datatype LocalDateTime = LocalDateTime(
    year: int, monthIndex: nat, day: nat, hours: nat, minutes: nat, seconds: nat)

  /** The ranges the `Date` getters stay within. */
  predicate Valid(t: LocalDateTime) {
    t.monthIndex < 12 && 1 <= t.day <= 31 && t.hours < 24 && t.minutes < 60 && t.seconds < 60
  }

  /** `${year}-${pad(month + 1)}-${pad(day)}T${pad(hours)}:${pad(minutes)}` */
  function FormatMinutes(t: LocalDateTime): string {
    IntToString(t.year) + "-" + Pad(t.monthIndex + 1) + "-" + Pad(t.day)
      + "T" + Pad(t.hours) + ":" + Pad(t.minutes)
  }

  /** The same with `:${pad(seconds)}` appended. */
  function FormatSeconds(t: LocalDateTime): string {
    FormatMinutes(t) + ":" + Pad(t.seconds)
  }

  /** The two decimal digits at `i` and `i + 1`, if both are digits. */
  function TwoDigitsAt(s: string, i: nat): Option<nat>
    requires i + 2 <= |s|
  {
    if IsDigit(s[i]) && IsDigit(s[i + 1]) then Some(DigitValue(s[i]) * 10 + DigitValue(s[i + 1])) else None
  }

  /**
   * Reads `YYYY-MM-DDTHH:mm` back into its components (seconds set to 0).
   * The year is whatever precedes the last twelve characters.
   */
  function ParseMinutes(s: string): Option<LocalDateTime> {
    if |s| < 13 then None
    else
      var y, tail := s[..|s| - 12], s[|s| - 12..];
      if !IsIntString(y) || tail[0] != '-' || tail[3] != '-' || tail[6] != 'T' || tail[9] != ':' then None
      else
        match (TwoDigitsAt(tail, 1), TwoDigitsAt(tail, 4), TwoDigitsAt(tail, 7), TwoDigitsAt(tail, 10))
        case (Some(mo), Some(d), Some(h), Some(mi)) =>
          if 1 <= mo <= 12 && 1 <= d <= 31 && h < 24 && mi < 60
          then Some(LocalDateTime(ParseInt(y), mo - 1, d, h, mi, 0))
          else None
        case _ => None
  }

  /** Reads `YYYY-MM-DDTHH:mm:ss` back into its components. */
  function ParseSeconds(s: string): Option<LocalDateTime> {
    if |s| < 16 || s[|s| - 3] != ':' then None
    else
      match (ParseMinutes(s[..|s| - 3]), TwoDigitsAt(s, |s| - 2))
      case (Some(t), Some(sec)) => if sec < 60 then Some(t.(seconds := sec)) else None
      case _ => None
  }

  lemma PadDigitsAt(p: string, n: nat)
    requires n < 100 && p == Pad(n)
    ensures |p| == 2 && TwoDigitsAt(p, 0) == Some(n)
  {
    PadTwoDigits(n);
    assert p[..1][..0] == [];
    assert ParseNat(p) == ParseNat(p[..1]) * 10 + DigitValue(p[1]);
  }

  lemma TwoDigitsOfSlice(s: string, i: nat, p: string)
    requires i + 2 <= |s| && s[i..i + 2] == p
    ensures TwoDigitsAt(s, i) == TwoDigitsAt(p, 0)
  {
    assert s[i] == p[0] && s[i + 1] == p[1];
  }

  /** The fixed-width part of the minute-precision layout, for any two-character pieces. */
  lemma TailLayout(y: string, p1: string, p2: string, p3: string, p4: string)
    requires |p1| == 2 && |p2| == 2 && |p3| == 2 && |p4| == 2
    ensures var s := y + "-" + p1 + "-" + p2 + "T" + p3 + ":" + p4;
      var tail := s[|s| - 12..];
      |s| == |y| + 12 && s[..|y|] == y
      && tail[0] == '-' && tail[3] == '-' && tail[6] == 'T' && tail[9] == ':'
      && TwoDigitsAt(tail, 1) == TwoDigitsAt(p1, 0) && TwoDigitsAt(tail, 4) == TwoDigitsAt(p2, 0)
      && TwoDigitsAt(tail, 7) == TwoDigitsAt(p3, 0) && TwoDigitsAt(tail, 10) == TwoDigitsAt(p4, 0)
  {
    var s := y + "-" + p1 + "-" + p2 + "T" + p3 + ":" + p4;
    var tail := "-" + p1 + "-" + p2 + "T" + p3 + ":" + p4;
    assert s == y + tail;
    assert s[|s| - 12..] == tail;
    TwoDigitsOfSlice(tail, 1, p1);
    TwoDigitsOfSlice(tail, 4, p2);
    TwoDigitsOfSlice(tail, 7, p3);
    TwoDigitsOfSlice(tail, 10, p4);
  }

  /** The layout of the minute-precision string: the year, then twelve fixed-width characters. */
  lemma FormatMinutesLayout(t: LocalDateTime)
    requires Valid(t)
    ensures var s, y := FormatMinutes(t), IntToString(t.year);
      var tail := s[|s| - 12..];
      |s| == |y| + 12 && s[..|y|] == y
      && tail[0] == '-' && tail[3] == '-' && tail[6] == 'T' && tail[9] == ':'
      && TwoDigitsAt(tail, 1) == Some(t.monthIndex + 1) && TwoDigitsAt(tail, 4) == Some(t.day)
      && TwoDigitsAt(tail, 7) == Some(t.hours) && TwoDigitsAt(tail, 10) == Some(t.minutes)
  {
    var y := IntToString(t.year);
    var p1, p2, p3, p4 := Pad(t.monthIndex + 1), Pad(t.day), Pad(t.hours), Pad(t.minutes);
    PadDigitsAt(p1, t.monthIndex + 1);
    PadDigitsAt(p2, t.day);
    PadDigitsAt(p3, t.hours);
    PadDigitsAt(p4, t.minutes);
    TailLayout(y, p1, p2, p3, p4);
    assert FormatMinutes(t) == y + "-" + p1 + "-" + p2 + "T" + p3 + ":" + p4;
  }

  /**
   * The minute-precision format loses nothing but the seconds: parsing it gives
   * back every other component, so each is written in exactly two digits.
   */
  lemma ParseFormatMinutes(t: LocalDateTime)
    requires Valid(t)
    ensures ParseMinutes(FormatMinutes(t)) == Some(t.(seconds := 0))
  {
    var s, y := FormatMinutes(t), IntToString(t.year);
    FormatMinutesLayout(t);
    ParseIntToString(t.year);
    assert s[..|s| - 12] == y;
  }

  /** How `ParseSeconds` sees a minute-precision string followed by `:` and two characters. */
  lemma SecondsSuffix(m: string, p: string)
    requires |m| >= 13 && |p| == 2
    ensures ParseSeconds(m + ":" + p)
      == match (ParseMinutes(m), TwoDigitsAt(p, 0))
         case (Some(t), Some(sec)) => if sec < 60 then Some(t.(seconds := sec)) else None
         case _ => None
  {
    var s := m + ":" + p;
    assert s[..|s| - 3] == m;
    assert s[|s| - 2] == p[0] && s[|s| - 1] == p[1];
  }

  /** The second-precision format loses nothing at all. */
  lemma ParseFormatSeconds(t: LocalDateTime)
    requires Valid(t)
    ensures ParseSeconds(FormatSeconds(t)) == Some(t)
  {
    var m, p := FormatMinutes(t), Pad(t.seconds);
    FormatMinutesLayout(t);
    PadDigitsAt(p, t.seconds);
    ParseFormatMinutes(t);
    SecondsSuffix(m, p);
  }

  /** Different readings never share a second-precision string. */
  lemma FormatSecondsInjective(t: LocalDateTime, u: LocalDateTime)
    requires Valid(t) && Valid(u) && FormatSeconds(t) == FormatSeconds(u)
    ensures t == u
  {
    ParseFormatSeconds(t);
    ParseFormatSeconds(u);
  }
}
