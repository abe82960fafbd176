/**
 The name under which a captured frame is saved: the capture timestamp, then
 the controller's steering angle and configured speed, then the `.png`
 extension. The timestamp comes from the clock and is taken here as an opaque
 string; the parser below shows that nothing is lost in the name.
 */
module FrameLog {
  import opened Options
  import opened Decimal

  const AngleTag: string := "_angle-"
  const SpeedTag: string := "_speed-"
  const Extension: string := ".png"

  /** What a saved file name records about the frame it holds. */
  datatype Sample = Sample(timestamp: string, angle: int, speed: int)

  /** The file name built in `save_frame_and_angle`. */
  function Filename(timestamp: string, angle: int, speed: int): (name: string)
    ensures |name| >= |timestamp| + |AngleTag| + |SpeedTag| + |Extension| + 2
    ensures name[..|timestamp|] == timestamp
    ensures name[|name| - |Extension|..] == Extension
  {
    timestamp + AngleTag + IntToString(angle) + SpeedTag + IntToString(speed) + Extension
  }

  /**
   The shape of `strftime("%m-%d-%y-%H:%M:%S:%f")`: two-digit month, day,
   year, hour, minute and second, then six digits of microseconds.
   */
  predicate IsTimestamp(ts: string) {
    && |ts| == 24
    && forall i :: 0 <= i < |ts| ==>
         if i == 2 || i == 5 || i == 8 then ts[i] == '-'
         else if i == 11 || i == 14 || i == 17 then ts[i] == ':'
         else IsDigit(ts[i])
  }

  lemma TimestampHasNoUnderscore(ts: string)
    requires IsTimestamp(ts)
    ensures '_' !in ts
  {
  }

  /** Splits `s` at the first occurrence of `c`, if there is one. */
  function SplitFirst(s: string, c: char): (r: Option<(string, string)>)
    ensures r.None? <==> c !in s
    ensures r.Some? ==> s == r.value.0 + [c] + r.value.1 && c !in r.value.0
  {
    if |s| == 0 then None
    else if s[0] == c then Some(([], s[1..]))
    else
      match SplitFirst(s[1..], c)
      case None => None
      case Some((a, b)) => Some(([s[0]] + a, b))
  }

  lemma {:induction false} SplitFirstAtBoundary(x: string, c: char, y: string)
    requires c !in x
    ensures SplitFirst(x + [c] + y, c) == Some((x, y))
    decreases |x|
  {
    var s := x + [c] + y;
    if |x| == 0 {
      assert s[1..] == y;
    } else {
      assert s[0] == x[0] && s[1..] == x[1..] + [c] + y;
      SplitFirstAtBoundary(x[1..], c, y);
      assert [x[0]] + x[1..] == x;
    }
  }

  function StripPrefix(s: string, p: string): (r: Option<string>)
    ensures r.Some? <==> |p| <= |s| && s[..|p|] == p
    ensures r.Some? ==> s == p + r.value
  {
    if |p| <= |s| && s[..|p|] == p then Some(s[|p|..]) else None
  }

  /** Reads `<angle>_speed-<speed>`, the part of a name after the angle tag. */
  function ParseReadings(text: string): (r: Option<(int, int)>)
  {
    match SplitFirst(text, '_')
    case None => None
    case Some((angleText, tail)) =>
      match StripPrefix(tail, SpeedTag[1..])
      case None => None
      case Some(speedText) =>
        match (ParseInt(angleText), ParseInt(speedText))
        case (Some(a), Some(v)) => Some((a, v))
        case _ => None
  }

  function StripSuffix(s: string, p: string): (r: Option<string>)
    ensures r.Some? <==> |p| <= |s| && s[|s| - |p|..] == p
    ensures r.Some? ==> s == r.value + p
  {
    if |p| <= |s| && s[|s| - |p|..] == p then Some(s[..|s| - |p|]) else None
  }

  lemma StripPrefixOf(p: string, x: string)
    ensures StripPrefix(p + x, p) == Some(x)
  {
    assert (p + x)[..|p|] == p;
  }

  lemma StripSuffixOf(x: string, p: string)
    ensures StripSuffix(x + p, p) == Some(x)
  {
    assert (x + p)[|x|..] == p;
  }

  /** Reads `<timestamp>_angle-<angle>_speed-<speed>`, a name without its extension. */
  function ParseStem(stem: string): (r: Option<Sample>)
  {
    match SplitFirst(stem, '_')
    case None => None
    case Some((ts, rest)) =>
      match StripPrefix(rest, AngleTag[1..])
      case None => None
      case Some(readings) =>
        match ParseReadings(readings)
        case None => None
        case Some((a, v)) => Some(Sample(ts, a, v))
  }

  /**
   Reads a saved file name back into the sample it records, or `None` when
   the name does not have the shape `Filename` produces.
   */
  function ParseFilename(name: string): (r: Option<Sample>)
  {
    match StripSuffix(name, Extension)
    case None => None
    case Some(stem) => ParseStem(stem)
  }

  lemma IntToStringHasNoUnderscore(n: int)
    ensures '_' !in IntToString(n)
  {
  }

  lemma ReadingsRoundTrip(angle: int, speed: int)
    ensures ParseReadings(IntToString(angle) + SpeedTag + IntToString(speed))
         == Some((angle, speed))
  {
    var a, v := IntToString(angle), IntToString(speed);
    var tail := SpeedTag[1..] + v;
    assert a + SpeedTag + v == a + ['_'] + tail;
    IntToStringHasNoUnderscore(angle);
    SplitFirstAtBoundary(a, '_', tail);
    StripPrefixOf(SpeedTag[1..], v);
    IntToStringRoundTrip(angle);
    IntToStringRoundTrip(speed);
  }

  lemma StemRoundTrip(ts: string, readings: string)
    requires '_' !in ts
    ensures ParseStem(ts + AngleTag + readings) == match ParseReadings(readings)
      case None => None
      case Some((a, v)) => Some(Sample(ts, a, v))
  {
    var rest := AngleTag[1..] + readings;
    assert ts + AngleTag + readings == ts + ['_'] + rest;
    SplitFirstAtBoundary(ts, '_', rest);
    StripPrefixOf(AngleTag[1..], readings);
  }

  /** A file name built from a real timestamp records exactly that timestamp, angle and speed. */
  lemma FilenameRoundTrip(ts: string, angle: int, speed: int)
    requires '_' !in ts
    ensures ParseFilename(Filename(ts, angle, speed)) == Some(Sample(ts, angle, speed))
  {
    var readings := IntToString(angle) + SpeedTag + IntToString(speed);
    var stem := ts + AngleTag + readings;
    assert Filename(ts, angle, speed) == stem + Extension;
    StripSuffixOf(stem, Extension);
    StemRoundTrip(ts, readings);
    ReadingsRoundTrip(angle, speed);
  }

  /** Two frames saved with different timestamps, angles or speeds get different names. */
  lemma FilenameInjective(ts1: string, a1: int, v1: int, ts2: string, a2: int, v2: int)
    requires '_' !in ts1 && '_' !in ts2
    requires Filename(ts1, a1, v1) == Filename(ts2, a2, v2)
    ensures ts1 == ts2 && a1 == a2 && v1 == v2
  {
    FilenameRoundTrip(ts1, a1, v1);
    FilenameRoundTrip(ts2, a2, v2);
  }
}
