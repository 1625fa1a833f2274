/**
 * The display helpers of src/utils/formatters.ts over integer inputs, together with the decimal rendering
 * of JavaScript numbers they rely on (`Number.prototype.toString` for integers) and `String.prototype.padStart`.
 * Each rendering has a parser beside it, so that what the helpers print can be read back.
 */
module Formatters {
  import opened Common

  predicate IsDigit(c: char)
  {
    '0' <= c <= '9'
  }

  predicate AllDigits(s: string)
  {
    forall i :: 0 <= i < |s| ==> IsDigit(s[i])
  }

  function DigitChar(d: nat): (c: char)
    requires d < 10
    ensures IsDigit(c)
  {
    (('0' as int) + d) as char
  }

  function DigitValue(c: char): (d: nat)
    requires IsDigit(c)
    ensures d < 10
  {
    (c as int) - ('0' as int)
  }

  /** The decimal digits of `n`, most significant first, without leading zeros. */
  function NatToString(n: nat): (s: string)
    ensures |s| >= 1 && AllDigits(s)
    ensures |s| == 1 <==> n < 10
    ensures s[0] == '0' ==> n == 0
    decreases n
  {
    if n < 10 then [DigitChar(n)] else NatToString(n / 10) + [DigitChar(n % 10)]
  }

  /** The number a string of decimal digits denotes. */
  function DigitsValue(s: string): nat
    requires AllDigits(s)
    decreases |s|
  {
    if s == [] then 0 else DigitsValue(s[..|s| - 1]) * 10 + DigitValue(s[|s| - 1])
  }

  /** A non-empty run of decimal digits, read as a number; anything else does not parse. */
  function ParseNat(s: string): Option<nat>
  {
    if |s| > 0 && AllDigits(s) then Some(DigitsValue(s)) else None
  }

  /** Reading back the digits of a number gives the number. */
  lemma {:induction false} NatToStringRoundTrip(n: nat)
    ensures ParseNat(NatToString(n)) == Some(n)
    decreases n
  {
    if n >= 10 {
      NatToStringRoundTrip(n / 10);
      var s := NatToString(n);
      assert s[..|s| - 1] == NatToString(n / 10);
      assert DigitValue(DigitChar(n % 10)) == n % 10;
    } else {
      var s := NatToString(n);
      assert s == [DigitChar(n)] && s[..0] == [];
      assert DigitsValue(s) == DigitsValue([]) * 10 + DigitValue(DigitChar(n));
    }
  }

  /** `String(n)` for an integer: a minus sign before the digits of a negative number. */
  function IntToString(n: int): (s: string)
    ensures |s| >= 1
    ensures forall i :: 0 <= i < |s| ==> s[i] == '-' || IsDigit(s[i])
    ensures n >= 0 ==> s == NatToString(n)
  {
    if n < 0 then "-" + NatToString(-n) else NatToString(n)
  }

  function ParseInt(s: string): Option<int>
  {
    if |s| > 0 && s[0] == '-' then
      match ParseNat(s[1..])
      case Some(v) => Some(-(v as int))
      case None => None
    else
      match ParseNat(s)
      case Some(v) => Some(v)
      case None => None
  }

  lemma IntToStringRoundTrip(n: int)
    ensures ParseInt(IntToString(n)) == Some(n)
  {
    if n < 0 {
      NatToStringRoundTrip(-n);
      assert IntToString(n)[1..] == NatToString(-n);
    } else {
      NatToStringRoundTrip(n);
    }
  }

  /** `s.padStart(targetLength, fill)` with a one-character filler. */
  function PadStart(s: string, targetLength: int, fill: char): (r: string)
    ensures |r| == if |s| >= targetLength then |s| else targetLength
    ensures r[|r| - |s|..] == s
    ensures forall i :: 0 <= i < |r| - |s| ==> r[i] == fill
    decreases targetLength - |s|
  {
    if |s| >= targetLength then s else PadStart([fill] + s, targetLength, fill)
  }

  /** `padZero(num)`: `num.toString().padStart(2, '0')`. */
  function PadZero(n: int): string
  {
    PadStart(IntToString(n), 2, '0')
  }

  /**
   * Exactly the one-digit numbers gain a leading zero; every other number, negative ones included, is
   * printed unchanged.
   */
  lemma PadZeroCases(n: int)
    ensures PadZero(n) == if 0 <= n < 10 then "0" + IntToString(n) else IntToString(n)
  {
    var s := IntToString(n);
    if 0 <= n < 10 {
      assert |s| == 1;
      var r := PadZero(n);
      assert |r| == 2 && r[1..] == s && r[0] == '0';
      assert r == "0" + s;
    } else if n < 0 {
      assert |s| >= 2;
    }
  }

  /** A padded field of a non-negative number is all digits and reads back as the number. */
  lemma PadZeroRoundTrip(n: nat)
    ensures AllDigits(PadZero(n)) && ParseNat(PadZero(n)) == Some(n)
  {
    PadZeroCases(n);
    if n < 10 {
      assert IntToString(n) == [DigitChar(n)];
      LeadingZero(n);
      assert PadZero(n) == ['0', DigitChar(n)];
    } else {
      NatToStringRoundTrip(n);
    }
  }

  /** A zero before a single digit does not change the number it denotes. */
  lemma LeadingZero(d: nat)
    requires d < 10
    ensures AllDigits(['0', DigitChar(d)]) && ParseNat(['0', DigitChar(d)]) == Some(d)
  {
    var r := ['0', DigitChar(d)];
    assert r[..1] == ['0'] && ['0'][..0] == [];
    assert DigitsValue(['0']) == 0;
    assert DigitsValue(r) == DigitsValue(['0']) * 10 + DigitValue(DigitChar(d));
  }

  /** `str.split(sep)` for a one-character separator: the fields between separators, in order. */
  function Split(s: string, sep: char): (parts: seq<string>)
    ensures |parts| >= 1
    decreases |s|
  {
    if s == [] then [""]
    else if s[0] == sep then [""] + Split(s[1..], sep)
    else
      var rest := Split(s[1..], sep);
      [[s[0]] + rest[0]] + rest[1..]
  }

  lemma {:induction false} SplitNoSep(a: string, sep: char)
    requires sep !in a
    ensures Split(a, sep) == [a]
    decreases |a|
  {
    if a != [] {
      SplitNoSep(a[1..], sep);
      assert [a[0]] + a[1..] == a;
    }
  }

  /** A field free of the separator, then the separator, splits off as the first field. */
  lemma {:induction false} SplitAppend(a: string, b: string, sep: char)
    requires sep !in a
    ensures Split(a + [sep] + b, sep) == [a] + Split(b, sep)
    decreases |a|
  {
    var s := a + [sep] + b;
    if a == [] {
      assert s == [sep] + b && s[1..] == b;
    } else {
      assert s[0] == a[0] && s[1..] == a[1..] + [sep] + b;
      SplitAppend(a[1..], b, sep);
      assert [a[0]] + a[1..] == a;
    }
  }

  const UNKNOWN_DURATION: string := "Unknown duration"

  /**
   * `formatDuration(milliseconds)` for an integral number of milliseconds: a fixed text for zero and
   * negative durations, and otherwise the clock text of the whole seconds.
   */
  function FormatDuration(milliseconds: int): string
  {
    if milliseconds <= 0 then UNKNOWN_DURATION else Clock(milliseconds / 1000)
  }

  /** The clock text of `formatDuration`: `M:SS` under an hour, `H:MM:SS` from an hour on. */
  function Clock(totalSeconds: nat): string
  {
    var minutes := totalSeconds / 60;
    var seconds := totalSeconds % 60;
    if minutes >= 60 then
      IntToString(minutes / 60) + ":" + PadZero(minutes % 60) + ":" + PadZero(seconds)
    else
      IntToString(minutes) + ":" + PadZero(seconds)
  }

  /**
   * Reads a duration back: two or three colon-separated runs of digits, as minutes and seconds or as
   * hours, minutes and seconds, giving the total number of seconds.
   */
  function ParseDuration(s: string): Option<int>
  {
    var parts := Split(s, ':');
    if |parts| == 2 && ParseNat(parts[0]).Some? && ParseNat(parts[1]).Some? then
      Some(ParseNat(parts[0]).value * 60 + ParseNat(parts[1]).value)
    else if |parts| == 3 && ParseNat(parts[0]).Some? && ParseNat(parts[1]).Some? && ParseNat(parts[2]).Some? then
      Some(ParseNat(parts[0]).value * 3600 + ParseNat(parts[1]).value * 60 + ParseNat(parts[2]).value)
    else
      None
  }

  lemma DigitsHaveNoColon(s: string)
    requires AllDigits(s)
    ensures ':' !in s
  {
  }

  /** Two runs of digits joined by a colon split back into the two runs. */
  lemma SplitFields2(a: string, b: string)
    requires AllDigits(a) && AllDigits(b)
    ensures Split(a + ":" + b, ':') == [a, b]
  {
    DigitsHaveNoColon(a);
    DigitsHaveNoColon(b);
    SplitNoSep(b, ':');
    assert a + ":" + b == a + [':'] + b;
    SplitAppend(a, b, ':');
  }

  /** Three runs of digits joined by colons split back into the three runs. */
  lemma SplitFields3(a: string, b: string, c: string)
    requires AllDigits(a) && AllDigits(b) && AllDigits(c)
    ensures Split(a + ":" + b + ":" + c, ':') == [a, b, c]
  {
    SplitFields2(b, c);
    DigitsHaveNoColon(a);
    assert a + ":" + b + ":" + c == a + [':'] + (b + ":" + c);
    SplitAppend(a, b + ":" + c, ':');
  }

  /** Under an hour the clock text is the whole minutes and the padded seconds, which make up the total. */
  lemma ClockFieldsMinutes(totalSeconds: nat) returns (minutes: nat, seconds: nat)
    requires totalSeconds < 3600
    ensures minutes == totalSeconds / 60 && seconds == totalSeconds % 60
    ensures Clock(totalSeconds) == IntToString(minutes) + ":" + PadZero(seconds)
    ensures totalSeconds == minutes * 60 + seconds && seconds < 60
  {
    minutes, seconds := totalSeconds / 60, totalSeconds % 60;
  }

  /** From an hour on the clock text is the hours, the padded minutes and the padded seconds. */
  lemma ClockFieldsHours(totalSeconds: nat) returns (hours: nat, minutes: nat, seconds: nat)
    requires totalSeconds >= 3600
    ensures hours == totalSeconds / 60 / 60 && minutes == totalSeconds / 60 % 60 && seconds == totalSeconds % 60
    ensures Clock(totalSeconds) == IntToString(hours) + ":" + PadZero(minutes) + ":" + PadZero(seconds)
    ensures totalSeconds == hours * 3600 + minutes * 60 + seconds && minutes < 60 && seconds < 60
  {
    hours, minutes, seconds := totalSeconds / 60 / 60, totalSeconds / 60 % 60, totalSeconds % 60;
    assert totalSeconds / 60 >= 60;
  }

  /** A field of a clock text after the first: two digits denoting a number below sixty. */
  ghost predicate TwoDigits(field: string)
  {
    |field| == 2 && AllDigits(field) && DigitsValue(field) < 60
  }

  /** A padded field of a number below sixty is two digits denoting that number. */
  lemma PadZeroBelowSixty(n: nat)
    requires n < 60
    ensures TwoDigits(PadZero(n)) && DigitsValue(PadZero(n)) == n
  {
    PadZeroRoundTrip(n);
    PadZeroCases(n);
  }

  /** Two digit runs joined by a colon read back as minutes and seconds. */
  lemma ParseFields2(a: string, b: string, x: nat, y: nat, total: int)
    requires ParseNat(a) == Some(x) && ParseNat(b) == Some(y) && total == x * 60 + y
    ensures ParseDuration(a + ":" + b) == Some(total)
  {
    SplitFields2(a, b);
  }

  /** Three digit runs joined by colons read back as hours, minutes and seconds. */
  lemma ParseFields3(a: string, b: string, c: string, x: nat, y: nat, z: nat, total: int)
    requires ParseNat(a) == Some(x) && ParseNat(b) == Some(y) && ParseNat(c) == Some(z)
    requires total == x * 3600 + y * 60 + z
    ensures ParseDuration(a + ":" + b + ":" + c) == Some(total)
  {
    SplitFields3(a, b, c);
  }

  /** Minutes and padded seconds, joined by a colon, read back as minutes and seconds. */
  lemma FieldsRoundTrip2(minutes: nat, seconds: nat, total: int)
    requires total == minutes * 60 + seconds
    ensures ParseDuration(IntToString(minutes) + ":" + PadZero(seconds)) == Some(total)
  {
    NatToStringRoundTrip(minutes);
    PadZeroRoundTrip(seconds);
    ParseFields2(IntToString(minutes), PadZero(seconds), minutes, seconds, total);
  }

  /** Hours, padded minutes and padded seconds, joined by colons, read back as the three numbers. */
  lemma FieldsRoundTrip3(hours: nat, minutes: nat, seconds: nat, total: int)
    requires total == hours * 3600 + minutes * 60 + seconds
    ensures ParseDuration(IntToString(hours) + ":" + PadZero(minutes) + ":" + PadZero(seconds)) == Some(total)
  {
    NatToStringRoundTrip(hours);
    PadZeroRoundTrip(minutes);
    PadZeroRoundTrip(seconds);
    ParseFields3(IntToString(hours), PadZero(minutes), PadZero(seconds), hours, minutes, seconds, total);
  }

  /** Under an hour: two fields, the whole minutes and the two-digit seconds. */
  lemma ClockMinutes(totalSeconds: nat)
    requires totalSeconds < 3600
    ensures Split(Clock(totalSeconds), ':') == [IntToString(totalSeconds / 60), PadZero(totalSeconds % 60)]
  {
    var minutes, seconds := ClockFieldsMinutes(totalSeconds);
    PadZeroRoundTrip(seconds);
    SplitFields2(IntToString(minutes), PadZero(seconds));
  }

  /** From an hour on: three fields, the hours, the two-digit minutes and the two-digit seconds. */
  lemma ClockHours(totalSeconds: nat)
    requires totalSeconds >= 3600
    ensures var minutes := totalSeconds / 60;
      Split(Clock(totalSeconds), ':') == [IntToString(minutes / 60), PadZero(minutes % 60), PadZero(totalSeconds % 60)]
  {
    var hours, minutes, seconds := ClockFieldsHours(totalSeconds);
    PadZeroRoundTrip(minutes);
    PadZeroRoundTrip(seconds);
    SplitFields3(IntToString(hours), PadZero(minutes), PadZero(seconds));
  }

  /** Under an hour the clock text reads back as its whole seconds. */
  lemma ClockParsesMinutes(totalSeconds: nat)
    requires totalSeconds < 3600
    ensures ParseDuration(Clock(totalSeconds)) == Some(totalSeconds)
  {
    var minutes, seconds := ClockFieldsMinutes(totalSeconds);
    FieldsRoundTrip2(minutes, seconds, totalSeconds);
  }

  /** From an hour on the clock text reads back as its whole seconds. */
  lemma ClockParsesHours(totalSeconds: nat)
    requires totalSeconds >= 3600
    ensures ParseDuration(Clock(totalSeconds)) == Some(totalSeconds)
  {
    var hours, minutes, seconds := ClockFieldsHours(totalSeconds);
    FieldsRoundTrip3(hours, minutes, seconds, totalSeconds);
  }

  /** Every field after the first is two digits below sixty. */
  ghost predicate TwoDigitTail(parts: seq<string>)
  {
    forall i :: 1 <= i < |parts| ==> TwoDigits(parts[i])
  }

  lemma TailOfTwo(parts: seq<string>, a: string, b: string)
    requires parts == [a, b] && TwoDigits(b)
    ensures |parts| == 2 && TwoDigitTail(parts)
  {
  }

  lemma TailOfThree(parts: seq<string>, a: string, b: string, c: string)
    requires parts == [a, b, c] && TwoDigits(b) && TwoDigits(c)
    ensures |parts| == 3 && TwoDigitTail(parts)
  {
  }

  /** Under an hour the clock text has two fields, the second two digits below sixty. */
  lemma ClockShapeMinutes(totalSeconds: nat)
    requires totalSeconds < 3600
    ensures |Split(Clock(totalSeconds), ':')| == 2 && TwoDigitTail(Split(Clock(totalSeconds), ':'))
  {
    ClockMinutes(totalSeconds);
    PadZeroBelowSixty(totalSeconds % 60);
    TailOfTwo(Split(Clock(totalSeconds), ':'), IntToString(totalSeconds / 60), PadZero(totalSeconds % 60));
  }

  /** From an hour on the clock text has three fields, the last two each two digits below sixty. */
  lemma ClockShapeHours(totalSeconds: nat)
    requires totalSeconds >= 3600
    ensures |Split(Clock(totalSeconds), ':')| == 3 && TwoDigitTail(Split(Clock(totalSeconds), ':'))
  {
    ClockHours(totalSeconds);
    PadZeroBelowSixty(totalSeconds / 60 % 60);
    PadZeroBelowSixty(totalSeconds % 60);
    TailOfThree(Split(Clock(totalSeconds), ':'), IntToString(totalSeconds / 60 / 60),
      PadZero(totalSeconds / 60 % 60), PadZero(totalSeconds % 60));
  }

  /**
   * The clock text reads back as its whole seconds; it has three fields exactly from an hour on, and every
   * field after the first is two digits below sixty.
   */
  lemma ClockRoundTrip(totalSeconds: nat)
    ensures ParseDuration(Clock(totalSeconds)) == Some(totalSeconds)
    ensures |Split(Clock(totalSeconds), ':')| == (if totalSeconds >= 3600 then 3 else 2)
    ensures TwoDigitTail(Split(Clock(totalSeconds), ':'))
  {
    if totalSeconds >= 3600 {
      ClockParsesHours(totalSeconds);
      ClockShapeHours(totalSeconds);
    } else {
      ClockParsesMinutes(totalSeconds);
      ClockShapeMinutes(totalSeconds);
    }
  }

  /** Under an hour a duration shows as `M:SS`: its whole minutes, then its remaining seconds padded. */
  lemma FormatDurationMinutes(milliseconds: int)
    requires milliseconds > 0 && milliseconds / 1000 < 3600
    ensures var totalSeconds := milliseconds / 1000;
      Split(FormatDuration(milliseconds), ':') == [IntToString(totalSeconds / 60), PadZero(totalSeconds % 60)]
  {
    ClockMinutes(milliseconds / 1000);
  }

  /** From an hour on a duration shows as `H:MM:SS`, minutes below sixty and seconds both padded. */
  lemma FormatDurationHours(milliseconds: int)
    requires milliseconds / 1000 >= 3600
    ensures var minutes := milliseconds / 1000 / 60;
      Split(FormatDuration(milliseconds), ':') == [IntToString(minutes / 60), PadZero(minutes % 60), PadZero(milliseconds / 1000 % 60)]
  {
    ClockHours(milliseconds / 1000);
  }

  /**
   * The fields of a positive duration recombine to its whole number of seconds; the text has three fields
   * exactly from one hour on, and every field after the first is two digits below sixty.
   */
  lemma FormatDurationRoundTrip(milliseconds: int)
    requires milliseconds > 0
    ensures ParseDuration(FormatDuration(milliseconds)) == Some(milliseconds / 1000)
    ensures var parts := Split(FormatDuration(milliseconds), ':');
      && (|parts| == 3 <==> milliseconds / 1000 >= 3600)
      && (|parts| == 2 <==> milliseconds / 1000 < 3600)
      && TwoDigitTail(parts)
  {
    ClockRoundTrip(milliseconds / 1000);
  }

  /** The clock text starts with a digit. */
  lemma ClockLeadsWithDigit(totalSeconds: nat)
    ensures IsDigit(Clock(totalSeconds)[0])
  {
    var minutes := totalSeconds / 60;
    var lead := if minutes >= 60 then IntToString(minutes / 60) else IntToString(minutes);
    assert Clock(totalSeconds)[0] == lead[0];
  }

  /** The fixed text appears exactly for zero and negative durations: a positive one starts with a digit. */
  lemma FormatDurationUnknown(milliseconds: int)
    ensures FormatDuration(milliseconds) == UNKNOWN_DURATION <==> milliseconds <= 0
  {
    if milliseconds > 0 {
      ClockLeadsWithDigit(milliseconds / 1000);
    }
  }

  /** `formatEpisodeCount(count)` for an integral count. */
  function FormatEpisodeCount(count: int): string
  {
    IntToString(count) + " episode" + (if count != 1 then "s" else "")
  }

  /**
   * The count text is the number followed by one word, which is the singular exactly when the count is one.
   */
  lemma EpisodeCountRoundTrip(count: int)
    ensures var parts := Split(FormatEpisodeCount(count), ' ');
      && |parts| == 2
      && ParseInt(parts[0]) == Some(count)
      && (parts[1] == "episode" <==> count == 1)
      && (count != 1 ==> parts[1] == "episodes")
  {
    var n := IntToString(count);
    var word := if count != 1 then "episodes" else "episode";
    assert FormatEpisodeCount(count) == n + [' '] + word;
    assert ' ' !in word;
    SplitNoSep(word, ' ');
    SplitAppend(n, word, ' ');
    IntToStringRoundTrip(count);
  }

  /** A UTF-16 code unit: what JavaScript's `length` counts and `substring` cuts. */
  type CodeUnit = u: int | 0 <= u < 0x1_0000

  /** The UTF-16 encoding of one character: itself below U+10000, a surrogate pair above. */
  function UnitsOf(c: char): (u: seq<CodeUnit>)
    ensures |u| == if (c as int) < 0x1_0000 then 1 else 2
    ensures (c as int) >= 0x1_0000 ==> 0xD800 <= u[0] < 0xDC00 && 0xDC00 <= u[1] < 0xE000
  {
    var v := c as int;
    if v < 0x1_0000 then [v]
    else [0xD800 + (v - 0x1_0000) / 0x400, 0xDC00 + (v - 0x1_0000) % 0x400]
  }

  /** The UTF-16 encoding of a string, the representation JavaScript strings have. */
  function Utf16(s: string): seq<CodeUnit>
  {
    if s == [] then [] else UnitsOf(s[0]) + Utf16(s[1..])
  }

  /** Every character of `s` lies in the Basic Multilingual Plane. */
  predicate BasicPlane(s: string)
  {
    forall i :: 0 <= i < |s| ==> (s[i] as int) < 0x1_0000
  }

  /** Text in the Basic Multilingual Plane has one code unit per character, each the character's value. */
  lemma {:induction false} Utf16BasicPlane(s: string)
    requires BasicPlane(s)
    ensures |Utf16(s)| == |s|
    ensures forall i :: 0 <= i < |s| ==> Utf16(s)[i] == s[i] as int
  {
    if s != [] {
      assert BasicPlane(s[1..]) by {
        forall i | 0 <= i < |s[1..]| ensures (s[1..][i] as int) < 0x1_0000 {
          assert s[1..][i] == s[i + 1];
        }
      }
      Utf16BasicPlane(s[1..]);
      assert Utf16(s) == [s[0] as int] + Utf16(s[1..]);
    }
  }

  /** The encoding of a concatenation is the concatenation of the encodings. */
  lemma {:induction false} Utf16Append(a: string, b: string)
    ensures Utf16(a + b) == Utf16(a) + Utf16(b)
  {
    if a == [] {
      assert a + b == b;
    } else {
      assert (a + b)[0] == a[0] && (a + b)[1..] == a[1..] + b;
      Utf16Append(a[1..], b);
    }
  }

  /** The encoding is never shorter than the text, and longer by one for each character above U+FFFF. */
  lemma {:induction false} Utf16NotShorter(s: string)
    ensures |Utf16(s)| >= |s|
    ensures |Utf16(s)| == |s| <==> BasicPlane(s)
  {
    if s != [] {
      Utf16NotShorter(s[1..]);
      if BasicPlane(s) {
        assert BasicPlane(s[1..]) by {
          forall i | 0 <= i < |s[1..]| ensures (s[1..][i] as int) < 0x1_0000 {
            assert s[1..][i] == s[i + 1];
          }
        }
      }
      if (s[0] as int) < 0x1_0000 && BasicPlane(s[1..]) {
        forall i | 0 <= i < |s| ensures (s[i] as int) < 0x1_0000 {
          if i > 0 {
            assert s[i] == s[1..][i - 1];
          }
        }
      }
    }
  }

  const ELLIPSIS: string := "..."

  /**
   * `truncateText(text, maxLength)` for an integral limit, on the UTF-16 code units JavaScript strings
   * consist of: missing and empty text give the empty string, text whose length in code units is within
   * the limit is kept, longer text keeps its first `maxLength` code units (none for a negative limit, as
   * `substring` clamps) and gains an ellipsis. The cut may fall inside a surrogate pair.
   */
  function TruncateText(text: Option<string>, maxLength: int): (r: seq<CodeUnit>)
    ensures text == None || text == Some("") ==> r == []
    ensures text.Some? && |Utf16(text.value)| <= maxLength ==> r == Utf16(text.value)
    ensures text.Some? && text.value != "" && |Utf16(text.value)| > maxLength ==>
      var kept := if maxLength < 0 then 0 else maxLength;
      && |r| == kept + 3
      && r[..kept] == Utf16(text.value)[..kept]
      && r[kept..] == Utf16(ELLIPSIS)
  {
    if text.None? || text.value == "" || |Utf16(text.value)| <= maxLength then
      if text.Some? then Utf16(text.value) else []
    else
      var kept := if maxLength < 0 then 0 else maxLength;
      Utf16(text.value)[..kept] + Utf16(ELLIPSIS)
  }

  /**
   * For text in the Basic Multilingual Plane the limit counts characters: longer text keeps its first
   * `maxLength` characters, followed by the ellipsis.
   */
  lemma TruncateBasicPlane(text: string, maxLength: nat)
    requires BasicPlane(text) && maxLength < |text|
    ensures TruncateText(Some(text), maxLength) == Utf16(text[..maxLength] + ELLIPSIS)
  {
    Utf16BasicPlane(text);
    assert BasicPlane(text[..maxLength]) by {
      forall i | 0 <= i < maxLength ensures (text[..maxLength][i] as int) < 0x1_0000 {
        assert text[..maxLength][i] == text[i];
      }
    }
    Utf16BasicPlane(text[..maxLength]);
    Utf16Append(text[..maxLength], ELLIPSIS);
    assert Utf16(text[..maxLength]) == Utf16(text)[..maxLength];
  }

  /**
   * Characters above U+FFFF count twice: two emoji are four code units, so a limit of two keeps the first
   * one, and a limit of three keeps the first one and half of the second.
   */
  lemma TruncateAstral()
    ensures TruncateText(Some("\U{1F600}\U{1F600}"), 2) == Utf16("\U{1F600}" + ELLIPSIS)
    ensures var r := TruncateText(Some("\U{1F600}\U{1F600}"), 3);
      |r| == 6 && r[..2] == Utf16("\U{1F600}") && 0xD800 <= r[2] < 0xDC00 && r[3..] == Utf16(ELLIPSIS)
  {
    var emoji := "\U{1F600}";
    var two := emoji + emoji;
    Utf16Append(emoji, emoji);
    Utf16Append(emoji, ELLIPSIS);
    assert Utf16(two) == UnitsOf(emoji[0]) + UnitsOf(emoji[0]);
    assert |Utf16(two)| == 4;
    assert Utf16(two)[..2] == Utf16(emoji);
  }
}
