/** The rehearsal clock's display: `formatTime` of App.tsx, which renders a
    second count as HH:MM:SS, and the parser that reads such a string back. */
module TimeFormat {
  import opened Types

  predicate IsDigit(c: char) { '0' <= c <= '9' }

  predicate AllDigits(s: string) { forall i :: 0 <= i < |s| ==> IsDigit(s[i]) }

  function DigitValue(c: char): (d: nat)
    requires IsDigit(c)
    ensures d < 10
  {
    c as int - '0' as int
  }

  function DigitChar(d: nat): (c: char)
    requires d < 10
    ensures IsDigit(c) && DigitValue(c) == d
  {
    ('0' as int + d) as char
  }

  /** `Number.prototype.toString()` on a non-negative integer: the shortest
      decimal numeral, with a leading zero only for zero itself. */
  function ToDecimal(n: nat): (s: string)
    ensures |s| >= 1 && AllDigits(s)
    ensures s[0] == '0' <==> n == 0
    ensures n >= 10 <==> |s| >= 2
    ensures n < 100 ==> |s| <= 2
  {
    if n < 10 then [DigitChar(n)]
    else ToDecimal(n / 10) + [DigitChar(n % 10)]
  }

  /** The value of a decimal numeral (leading zeros allowed). */
  function ParseDecimal(s: string): nat
    requires AllDigits(s)
  {
    if s == [] then 0
    else 10 * ParseDecimal(s[..|s| - 1]) + DigitValue(s[|s| - 1])
  }

  /** `String.prototype.padStart(width, fill)`: prepends `fill` until the
      string is `width` long; a longer string is returned whole. */
  function PadStart(s: string, width: nat, fill: char): (r: string)
    ensures |r| == if |s| < width then width else |s|
    ensures r[|r| - |s|..] == s
    ensures forall i :: 0 <= i < |r| - |s| ==> r[i] == fill
  {
    if |s| < width then seq(width - |s|, _ => fill) + s else s
  }

  /** One field of the clock: a number as two or more digits. */
  function Field(n: nat): (r: string)
    ensures |r| >= 2 && AllDigits(r)
    ensures n < 100 ==> |r| == 2
    ensures r[0] == '0' ==> n < 10
  {
    PadStart(ToDecimal(n), 2, '0')
  }

  /** `formatTime(seconds)`: hours, minutes and seconds, each padded to two
      digits, joined by ':'. Hours are not capped, so 100 hours or more
      give a longer hours field. */
  function FormatTime(seconds: nat): (r: string)
    ensures |r| >= 8 && r[|r| - 6] == ':' && r[|r| - 3] == ':'
    ensures seconds < 360000 ==> |r| == 8
  {
    Field(seconds / 3600) + [':'] + Field((seconds % 3600) / 60) + [':'] + Field(seconds % 60)
  }

  /** `String.prototype.split(sep)` for a one-character separator. */
  function Split(t: string, sep: char): (fields: seq<string>)
    ensures |fields| >= 1
    ensures forall i :: 0 <= i < |fields| ==> sep !in fields[i]
  {
    if t == [] then [[]]
    else
      var rest := Split(t[1..], sep);
      if t[0] == sep then [[]] + rest
      else [[t[0]] + rest[0]] + rest[1..]
  }

  /** A field as FormatTime writes it: at least two digits. */
  predicate IsClockField(s: string) { |s| >= 2 && AllDigits(s) }

  /** A field as FormatTime writes it for some number: two digits, or more
      digits without a leading zero. */
  predicate IsPaddedNumeral(s: string) { IsClockField(s) && (|s| == 2 || s[0] != '0') }

  /** Reads an HH:MM:SS display back into a second count: three fields as
      FormatTime writes them, minutes and seconds exactly two digits below 60. */
  function ParseTime(t: string): Option<nat>
  {
    var f := Split(t, ':');
    if |f| == 3 && IsPaddedNumeral(f[0]) && IsClockField(f[1]) && IsClockField(f[2])
       && |f[1]| == 2 && |f[2]| == 2 && ParseDecimal(f[1]) < 60 && ParseDecimal(f[2]) < 60
    then Some(3600 * ParseDecimal(f[0]) + 60 * ParseDecimal(f[1]) + ParseDecimal(f[2]))
    else None
  }

  lemma {:induction false} DecimalRoundTrip(n: nat)
    ensures ParseDecimal(ToDecimal(n)) == n
  {
    if n >= 10 {
      var s := ToDecimal(n);
      DecimalRoundTrip(n / 10);
      assert s[..|s| - 1] == ToDecimal(n / 10);
    }
  }

  lemma {:induction false} LeadingZeroKeepsValue(s: string)
    requires AllDigits(s)
    ensures AllDigits(['0'] + s) && ParseDecimal(['0'] + s) == ParseDecimal(s)
  {
    if s != [] {
      LeadingZeroKeepsValue(s[..|s| - 1]);
      assert (['0'] + s)[..|s|] == ['0'] + s[..|s| - 1];
    }
  }

  /** A padded field has at least two digits, reads back as its number, is
      exactly two digits below 100 and is the plain numeral from 10 on. */
  lemma FieldReadsBack(n: nat)
    ensures IsClockField(Field(n)) && ParseDecimal(Field(n)) == n
    ensures n < 100 ==> |Field(n)| == 2
    ensures n >= 10 ==> Field(n) == ToDecimal(n)
    ensures IsPaddedNumeral(Field(n))
  {
    var d := ToDecimal(n);
    DecimalRoundTrip(n);
    if n < 10 {
      assert Field(n) == ['0'] + d;
      LeadingZeroKeepsValue(d);
    }
  }

  lemma {:induction false} SplitLastField(a: string, sep: char)
    requires sep !in a
    ensures Split(a, sep) == [a]
  {
    if a != [] {
      SplitLastField(a[1..], sep);
      assert [a[0]] + a[1..] == a;
    }
  }

  lemma {:induction false} SplitFirstField(a: string, sep: char, rest: string)
    requires sep !in a
    ensures Split(a + [sep] + rest, sep) == [a] + Split(rest, sep)
  {
    if a == [] {
      assert a + [sep] + rest == [sep] + rest;
    } else {
      SplitFirstField(a[1..], sep, rest);
      assert (a + [sep] + rest)[1..] == a[1..] + [sep] + rest;
      assert [a[0]] + a[1..] == a;
    }
  }

  lemma ClockArithmetic(seconds: nat)
    ensures (seconds % 3600) / 60 < 60 && seconds % 60 < 60
    ensures 3600 * (seconds / 3600) + 60 * ((seconds % 3600) / 60) + seconds % 60 == seconds
  {
    var q, r := seconds / 3600, seconds % 3600;
    assert seconds == 3600 * q + r;
    assert r == 60 * (r / 60) + r % 60;
    assert seconds % 60 == r % 60 by {
      assert seconds == 60 * (60 * q + r / 60) + r % 60;
    }
  }

  lemma SplitThreeFields(a: string, b: string, c: string)
    requires AllDigits(a) && AllDigits(b) && AllDigits(c)
    ensures Split(a + [':'] + b + [':'] + c, ':') == [a, b, c]
  {
    SplitFirstField(a, ':', b + [':'] + c);
    SplitFirstField(b, ':', c);
    SplitLastField(c, ':');
    assert a + [':'] + b + [':'] + c == a + [':'] + (b + [':'] + c);
  }

  /** The display splits into hours, minutes and seconds fields: each at
      least two zero-padded digits, minutes and seconds exactly two and below
      60, the hours field the full numeral once it reaches 10 (never
      truncated), and together they add up to the second count. */
  lemma FormatTimeFields(seconds: nat)
    ensures var f := Split(FormatTime(seconds), ':');
      && |f| == 3
      && IsPaddedNumeral(f[0]) && IsClockField(f[1]) && IsClockField(f[2])
      && |f[1]| == 2 && |f[2]| == 2
      && ParseDecimal(f[0]) == seconds / 3600
      && ParseDecimal(f[1]) < 60 && ParseDecimal(f[2]) < 60
      && 3600 * ParseDecimal(f[0]) + 60 * ParseDecimal(f[1]) + ParseDecimal(f[2]) == seconds
      && (seconds >= 36000 ==> f[0] == ToDecimal(seconds / 3600))
  {
    var h, m, s := seconds / 3600, (seconds % 3600) / 60, seconds % 60;
    ClockArithmetic(seconds);
    FieldReadsBack(h);
    FieldReadsBack(m);
    FieldReadsBack(s);
    SplitThreeFields(Field(h), Field(m), Field(s));
  }

  /** Reading the display back gives the second count it was made from. */
  lemma FormatTimeRoundTrip(seconds: nat)
    ensures ParseTime(FormatTime(seconds)) == Some(seconds)
  {
    FormatTimeFields(seconds);
    ReadsAsSeconds(FormatTime(seconds), seconds);
  }

  lemma ReadsAsSeconds(t: string, seconds: nat)
    requires var f := Split(t, ':');
      && |f| == 3
      && IsPaddedNumeral(f[0]) && IsClockField(f[1]) && IsClockField(f[2])
      && |f[1]| == 2 && |f[2]| == 2
      && ParseDecimal(f[1]) < 60 && ParseDecimal(f[2]) < 60
      && 3600 * ParseDecimal(f[0]) + 60 * ParseDecimal(f[1]) + ParseDecimal(f[2]) == seconds
    ensures ParseTime(t) == Some(seconds)
  {
  }

  /** Distinct second counts never show the same display. */
  lemma FormatTimeInjective(a: nat, b: nat)
    requires FormatTime(a) == FormatTime(b)
    ensures a == b
  {
    FormatTimeRoundTrip(a);
    FormatTimeRoundTrip(b);
  }

  /** Joins fields with a separator: the inverse of Split. */
  function Join(fields: seq<string>, sep: char): string
    requires |fields| >= 1
  {
    if |fields| == 1 then fields[0] else fields[0] + [sep] + Join(fields[1..], sep)
  }

  lemma {:induction false} SplitJoin(t: string, sep: char)
    ensures Join(Split(t, sep), sep) == t
  {
    if t != [] {
      var rest := Split(t[1..], sep);
      SplitJoin(t[1..], sep);
      if t[0] != sep && |rest| > 1 {
        var fs := Split(t, sep);
        assert fs[1..] == rest[1..];
        assert Join(rest, sep) == rest[0] + [sep] + Join(rest[1..], sep);
      }
    }
  }

  lemma DigitRoundTrip(c: char)
    requires IsDigit(c)
    ensures DigitChar(DigitValue(c)) == c
  {
  }

  /** A numeral without superfluous leading zeros is the decimal form of its value. */
  lemma {:induction false} NumeralRoundTrip(s: string)
    requires |s| >= 1 && AllDigits(s) && (|s| == 1 || s[0] != '0')
    ensures ToDecimal(ParseDecimal(s)) == s
  {
    var c := s[|s| - 1];
    DigitRoundTrip(c);
    if |s| > 1 {
      var p := s[..|s| - 1];
      NumeralRoundTrip(p);
      var v := ParseDecimal(p);
      assert v != 0;
      var n := ParseDecimal(s);
      assert n == 10 * v + DigitValue(c);
      assert n / 10 == v && n % 10 == DigitValue(c);
      assert s == p + [c];
    }
  }

  /** A field as FormatTime writes it is the padded form of its value. */
  lemma FieldOfParse(f: string)
    requires IsPaddedNumeral(f)
    ensures Field(ParseDecimal(f)) == f
  {
    if f[0] != '0' {
      NumeralRoundTrip(f);
    } else {
      var c := f[1];
      assert f == ['0'] + [c];
      LeadingZeroKeepsValue([c]);
      NumeralRoundTrip([c]);
    }
  }

  lemma ClockDecompose(h: nat, m: nat, s: nat)
    requires m < 60 && s < 60
    ensures var n := 3600 * h + 60 * m + s;
      n / 3600 == h && (n % 3600) / 60 == m && n % 60 == s
  {
    var n := 3600 * h + 60 * m + s;
    var r := 60 * m + s;
    assert r < 3600;
    assert n / 3600 == h && n % 3600 == r;
    assert r / 60 == m && r % 60 == s;
    assert n == 60 * (60 * h + m) + s;
  }

  lemma FormatTimeOf(n: nat, h: nat, m: nat, s: nat)
    requires n / 3600 == h && (n % 3600) / 60 == m && n % 60 == s
    ensures FormatTime(n) == Field(h) + [':'] + Field(m) + [':'] + Field(s)
  {
  }

  lemma JoinThree(f: seq<string>, sep: char)
    requires |f| == 3
    ensures Join(f, sep) == f[0] + [sep] + f[1] + [sep] + f[2]
  {
    assert f[1..][1..] == [f[2]];
    assert Join(f[1..], sep) == f[1] + [sep] + f[2];
  }

  lemma ParsedFields(t: string)
    requires ParseTime(t).Some?
    ensures var f := Split(t, ':');
      && |f| == 3 && IsPaddedNumeral(f[0]) && IsPaddedNumeral(f[1]) && IsPaddedNumeral(f[2])
      && ParseDecimal(f[1]) < 60 && ParseDecimal(f[2]) < 60
      && ParseTime(t).value == 3600 * ParseDecimal(f[0]) + 60 * ParseDecimal(f[1]) + ParseDecimal(f[2])
  {
  }

  /** Every string ParseTime accepts is the display of the count it reads. */
  lemma ParseTimeSound(t: string)
    requires ParseTime(t).Some?
    ensures FormatTime(ParseTime(t).value) == t
  {
    ParsedFields(t);
    var f := Split(t, ':');
    var h, m, s := ParseDecimal(f[0]), ParseDecimal(f[1]), ParseDecimal(f[2]);
    var n := ParseTime(t).value;
    ClockDecompose(h, m, s);
    FormatTimeOf(n, h, m, s);
    FieldOfParse(f[0]);
    FieldOfParse(f[1]);
    FieldOfParse(f[2]);
    SplitJoin(t, ':');
    JoinThree(f, ':');
  }

  /** ParseTime and FormatTime are exact inverses: a string reads as n
      exactly when it is n's display. */
  lemma ParseTimeInverts(t: string, n: nat)
    ensures ParseTime(t) == Some(n) <==> t == FormatTime(n)
  {
    if ParseTime(t) == Some(n) {
      ParseTimeSound(t);
    }
    if t == FormatTime(n) {
      FormatTimeRoundTrip(n);
    }
  }
}
