/**
 * Text rendering shared by the handlers: Go's `%d` and `%02d` verbs, `formatDuration`
 * and `min` (bot.go), snowflake ids printed in decimal, and numbered track lists.
 */
module Format {
  import opened Lavalink

  predicate IsDigit(c: char) {
    '0' <= c <= '9'
  }

  predicate AllDigits(s: string) {
    forall i :: 0 <= i < |s| ==> IsDigit(s[i])
  }

  /** The number a string of decimal digits denotes (read from the right). */
  function DigitsValue(s: string): nat
    requires AllDigits(s)
  {
    if s == [] then 0 else DigitsValue(s[..|s| - 1]) * 10 + (s[|s| - 1] as int - '0' as int)
  }

  function DigitChar(d: nat): (c: char)
    requires d < 10
    ensures IsDigit(c) && c as int - '0' as int == d
  {
    ('0' as int + d) as char
  }

  /** `%d` of a non-negative integer: its decimal digits, no leading zero. */
  function Decimal(n: nat): (s: string)
    ensures 1 <= |s| && AllDigits(s)
    ensures DigitsValue(s) == n
    ensures |s| == 1 <==> n < 10
    decreases n
  {
    if n < 10 then [DigitChar(n)]
    else
      var init := Decimal(n / 10);
      var s := init + [DigitChar(n % 10)];
      assert s[..|s| - 1] == init;
      s
  }

  /** Two ids print the same exactly when they are the same id. */
  lemma DecimalInjective(a: nat, b: nat)
    requires Decimal(a) == Decimal(b)
    ensures a == b
  {
    assert DigitsValue(Decimal(a)) == a;
  }

  /** `%d` of any integer. */
  function IntString(i: int): (s: string)
    ensures 0 <= i ==> s == Decimal(i)
    ensures i < 0 ==> 2 <= |s| && s[0] == '-' && s[1..] == Decimal(-i)
  {
    if i < 0 then "-" + Decimal(-i) else Decimal(i)
  }

  /** `%02d`: at least two characters, zero-padded after the sign. */
  function Pad2(i: int): (s: string)
    ensures 0 <= i ==> 2 <= |s| && AllDigits(s) && DigitsValue(s) == i
    ensures 0 <= i < 100 ==> |s| == 2
  {
    if 0 <= i < 10 then
      var d := Decimal(i);
      var s := "0" + d;
      assert s[..1] == "0" && s[1] == d[0];
      s
    else if i < 0 then "-" + Decimal(-i)
    else Decimal(i)
  }

  /** Go's `/` on integers: the quotient truncated toward zero. */
  function GoQuo(a: int, b: nat): int
    requires b > 0
  {
    if a >= 0 then a / b else -((-a) / b)
  }

  /** Go's `%` on integers: the remainder takes the sign of the dividend. */
  function GoRem(a: int, b: nat): int
    requires b > 0
  {
    a - b * GoQuo(a, b)
  }

  /** `Duration.Hours()`: whole hours. */
  function Hours(d: int): int {
    GoQuo(d, Hour)
  }

  /** `Duration.MinutesPart()`: the minutes within the hour. */
  function MinutesPart(d: int): int {
    GoRem(GoQuo(d, Minute), 60)
  }

  /** `Duration.SecondsPart()`: the seconds within the minute. */
  function SecondsPart(d: int): int {
    GoRem(GoQuo(d, Second), 60)
  }

  /** `formatDuration`: "HH:MM:SS", each part `%02d`. */
  function FormatDuration(d: int): string {
    Clock([Hours(d), MinutesPart(d), SecondsPart(d)])
  }

  /** The fields, each `%02d`, joined by colons. */
  function Clock(fields: seq<int>): string
    decreases |fields|
  {
    if fields == [] then ""
    else if |fields| == 1 then Pad2(fields[0])
    else Clock(fields[..|fields| - 1]) + ":" + Pad2(fields[|fields| - 1])
  }

  /** Three fields give "HH:MM:SS". */
  lemma ClockOfThree(h: int, m: int, s: int)
    ensures Clock([h, m, s]) == Pad2(h) + ":" + Pad2(m) + ":" + Pad2(s)
  {
    assert [h, m, s][..2] == [h, m] && [h, m][..1] == [h];
    assert Clock([h, m]) == Pad2(h) + ":" + Pad2(m);
  }

  /**
   * `r` reads as "H..H:MM:SS" for `ms` milliseconds: two colons at fixed distances from
   * the end, all-digit fields, minutes and seconds below 60, and the three fields
   * recomposing `ms`.
   */
  predicate ShowsClock(r: string, ms: nat) {
    && |r| >= 8 && r[|r| - 3] == ':' && r[|r| - 6] == ':'
    && AllDigits(r[..|r| - 6]) && AllDigits(r[|r| - 5..|r| - 3]) && AllDigits(r[|r| - 2..])
    && var h, m, s := DigitsValue(r[..|r| - 6]), DigitsValue(r[|r| - 5..|r| - 3]), DigitsValue(r[|r| - 2..]);
    && m < 60 && s < 60
    && h * Hour + m * Minute + s * Second == ms
  }

  /**
   * A non-negative duration renders as at least eight characters: two colons at fixed
   * distances from the end, two-digit minutes and seconds, and an hour field of at least
   * two digits (it grows past two digits from 100 hours on). Read back, the three
   * fields give the duration cut down to whole seconds.
   */
  lemma {:induction false} FormatDurationReadsBack(d: nat)
    ensures ShowsClock(FormatDuration(d), d - d % Second)
  {
    var h, m, s := d / 3600000, (d / 60000) % 60, (d / 1000) % 60;
    assert Hours(d) == h && MinutesPart(d) == m && SecondsPart(d) == s;
    ClockOfThree(h, m, s);
    ClockArithmetic(d);
    ClockShows(Pad2(h), Pad2(m), Pad2(s), h, m, s);
  }

  /** Fields that read back as `h`, `m` and `s` make a clock showing that many milliseconds. */
  lemma ClockShows(ph: string, pm: string, ps: string, h: nat, m: nat, s: nat)
    requires |pm| == 2 && |ps| == 2 && m < 60 && s < 60
    requires AllDigits(ph) && AllDigits(pm) && AllDigits(ps)
    requires DigitsValue(ph) == h && DigitsValue(pm) == m && DigitsValue(ps) == s
    requires 2 <= |ph|
    ensures ShowsClock(ph + ":" + pm + ":" + ps, h * Hour + m * Minute + s * Second)
  {
    ClockLayout(ph, pm, ps);
  }

  /** Where the three fields of "HH:MM:SS" sit when minutes and seconds have two characters. */
  lemma ClockLayout(ph: string, pm: string, ps: string)
    requires |pm| == 2 && |ps| == 2
    ensures var r := ph + ":" + pm + ":" + ps;
      && |r| == |ph| + 6 && r[|r| - 3] == ':' && r[|r| - 6] == ':'
      && r[..|r| - 6] == ph && r[|r| - 5..|r| - 3] == pm && r[|r| - 2..] == ps
  {
  }

  /** The arithmetic behind the reading-back: hours, minutes and seconds recompose `d`. */
  lemma ClockArithmetic(d: nat)
    ensures (d / 3600000) * 3600000 + ((d / 60000) % 60) * 60000 + ((d / 1000) % 60) * 1000
            == d - d % 1000
  {
    var q1, r1 := d / 1000, d % 1000;
    var q2, r2 := q1 / 60, q1 % 60;
    assert d == 60000 * q2 + 1000 * r2 + r1;
    assert d / 60000 == q2;
    var q3, r3 := q2 / 60, q2 % 60;
    assert d == 3600000 * q3 + 60000 * r3 + 1000 * r2 + r1;
    assert d / 3600000 == q3;
  }

  /** Go's `min(a, b int)` (bot.go). */
  function Min(a: int, b: int): (r: int)
    ensures r <= a && r <= b
    ensures r == a || r == b
  {
    if a < b then a else b
  }

  /** Lines concatenated in order, as `description += line` in a loop builds them. */
  function Concat(lines: seq<string>): string {
    if lines == [] then "" else Concat(lines[..|lines| - 1]) + lines[|lines| - 1]
  }

  /** Appending a line appends its text. */
  lemma ConcatSnoc(lines: seq<string>, line: string)
    ensures Concat(lines + [line]) == Concat(lines) + line
  {
    assert (lines + [line])[..|lines|] == lines;
  }

  /**
   * One line per track, in queue order, numbered from 1: line `i` is
   * `line(i + 1, tracks[i])`.
   */
  function NumberedLines(tracks: seq<Track>, line: (nat, Track) -> string): (r: seq<string>)
    ensures |r| == |tracks|
    ensures forall i :: 0 <= i < |tracks| ==> r[i] == line(i + 1, tracks[i])
  {
    if tracks == [] then []
    else NumberedLines(tracks[..|tracks| - 1], line) + [line(|tracks|, tracks[|tracks| - 1])]
  }

  /** Text built line by line: appending line `i + 1` to the text of `i` lines gives `i + 1` lines. */
  lemma NumberedConcatStep(head: string, tracks: seq<Track>, i: nat, line: (nat, Track) -> string)
    requires i < |tracks|
    ensures head + Concat(NumberedLines(tracks[..i], line)) + line(i + 1, tracks[i])
            == head + Concat(NumberedLines(tracks[..i + 1], line))
  {
    var listed, next := NumberedLines(tracks[..i], line), line(i + 1, tracks[i]);
    NumberedLinesStep(tracks, i, line);
    ConcatSnoc(listed, next);
    calc {
      head + Concat(listed) + next;
      head + (Concat(listed) + next);
      head + Concat(listed + [next]);
    }
  }

  /** Numbering a longer prefix adds exactly the next line at the end. */
  lemma NumberedLinesStep(tracks: seq<Track>, i: nat, line: (nat, Track) -> string)
    requires i < |tracks|
    ensures NumberedLines(tracks[..i + 1], line) == NumberedLines(tracks[..i], line) + [line(i + 1, tracks[i])]
  {
    assert tracks[..i + 1][..i] == tracks[..i];
  }
}
