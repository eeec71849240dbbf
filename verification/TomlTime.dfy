/** The TOML writer and parser for local times. */
module TomlTime {
  import opened Toml

  datatype LocalTime = LocalTime(hour: int, minute: int, second: int, microsecond: int) {
    predicate InRange() {
      0 <= hour <= 99 && 0 <= minute <= 99 && 0 <= second <= 99 && 0 <= microsecond < 1_000_000
    }
  }

  // ----- the writer

  function Digit(n: nat): (c: char)
    requires n < 10
    ensures IsNumber(c) && c as int - '0' as int == n
  {
    '0' + n as char
  }

  function Decimal(n: nat): (s: string)
    ensures s != []
  {
    if n < 10 then [Digit(n)] else Decimal(n / 10) + [Digit(n % 10)]
  }

  /** Two columns, filled with zeros. */
  function Width2(n: int): string {
    if n < 0 then "-" + Decimal(-n)
    else if n < 10 then "0" + Decimal(n)
    else Decimal(n)
  }

  function Pow10(e: nat): (p: nat)
    ensures p >= 1
  {
    if e == 0 then 1 else 10 * Pow10(e - 1)
  }

  function Quotient(n: nat, p: nat): nat
    requires p >= 1
  {
    n / p
  }

  function Left(n: nat, p: nat): nat
    requires p >= 1
  {
    n % p
  }

  /** The digits of us from the weight 10^e down, as long as something is left. */
  function Fraction(us: nat, e: nat): string
    decreases e
  {
    if us == 0 then []
    else Decimal(Quotient(us, Pow10(e))) + if e == 0 then [] else Fraction(Left(us, Pow10(e)), e - 1)
  }

  /** The digits in front of weight `power`, and what they leave. */
  method NextDigits(curr: nat, power: nat) returns (digits: string, left: nat)
    requires power >= 1
    ensures digits == Decimal(Quotient(curr, power)) && left == Left(curr, power)
  {
    hide Decimal;
    var num := curr / power;
    assert curr == power * num + curr % power;
    digits := Decimal(num);
    left := curr - num * power;
  }

  /** The loop that prints the digits; it ends because nothing is left once the weight has reached 1. */
  method WriteFraction(us: nat) returns (out: string)
    ensures out == Fraction(us, 5)
  {
    out := "";
    var curr: nat, power: nat := us, 100000;
    ghost var e: nat := 5;
    PowersOfTen();
    FractionNone(5);
    hide Decimal, Quotient, Left, Fraction, Pow10;
    while curr != 0
      invariant curr != 0 ==> power == Pow10(e)
      invariant out + Remaining(curr, e) == Fraction(us, 5)
      decreases if curr == 0 then 0 else e + 1
    {
      FractionStep(curr, e);
      var digits, left := NextDigits(curr, power);
      Regrouped(out, digits, Remaining(left, if e == 0 then 0 else e - 1));
      out := out + digits;
      curr := left;
      power := power / 10;
      e := if e == 0 then 0 else e - 1;
    }
    assert out + [] == out;
  }

  ghost function Remaining(us: nat, e: nat): string {
    if us == 0 then [] else Fraction(us, e)
  }

  lemma Regrouped(a: string, b: string, c: string)
    ensures a + (b + c) == (a + b) + c
  {
  }

  lemma FractionNone(e: nat)
    ensures Fraction(0, e) == []
  {
  }

  lemma {:induction false} FractionStep(us: nat, e: nat)
    requires us != 0
    ensures e == 0 ==> Left(us, Pow10(e)) == 0
    ensures Fraction(us, e) ==
      Decimal(Quotient(us, Pow10(e))) + Remaining(Left(us, Pow10(e)), if e == 0 then 0 else e - 1)
    ensures e > 0 ==> Pow10(e) / 10 == Pow10(e - 1)
  {
    hide Decimal, Quotient;
    if e == 0 {
      assert Left(us, 1) == 0;
    } else {
      FractionNone(e - 1);
      hide Left;
    }
  }

  lemma PowersOfTen()
    ensures Pow10(5) == 100000 && Pow10(6) == 1_000_000
  {
    assert Pow10(1) == 10 && Pow10(2) == 100 && Pow10(3) == 1000 && Pow10(4) == 10000;
  }

  function PrintedTime(t: LocalTime): string {
    Width2(t.hour) + (":" + (Width2(t.minute) + (":" + (Width2(t.second) + PrintedFraction(t.microsecond)))))
  }

  function PrintedFraction(us: int): string {
    if us > 0 then "." + Fraction(us, 5) else []
  }

  // ----- the parser

  predicate IsTimeChar(c: char) {
    IsNumber(c) || c == ':' || c == '.'
  }

  /** The characters up to the end of a time. */
  function TimePart(s: string): (p: string)
    ensures p <= s
  {
    if s == [] || !IsTimeChar(s[0]) then [] else s[..1] + TimePart(s[1..])
  }

  function EatTwoDigits(s: string): Parsed<int> {
    if |s| < 2 || !IsNumber(s[0]) || !IsNumber(s[1]) then Fail
    else Done(10 * (s[0] as int - '0' as int) + (s[1] as int - '0' as int), s[2..])
  }

  function Eat(s: string, c: char): Parsed<()> {
    if s == [] || s[0] != c then Fail else Done((), s[1..])
  }

  /** The digits after the point, the first of weight power. */
  function ReadFraction(s: string, power: nat): (r: (int, string))
    decreases |s|
  {
    if s == [] || !IsNumber(s[0]) then (0, s)
    else
      var low := ReadFraction(s[1..], power / 10);
      (power * (s[0] as int - '0' as int) + low.0, low.1)
  }

  /** The loop that reads the digits after the point. */
  method ReadMicroseconds(s: string) returns (us: int, it: nat)
    ensures it <= |s| && (us, s[it..]) == ReadFraction(s, 100000)
  {
    us, it := 0, 0;
    var power: nat := 100000;
    assert s[0..] == s;
    while it != |s| && IsNumber(s[it])
      invariant it <= |s|
      invariant us + ReadFraction(s[it..], power).0 == ReadFraction(s, 100000).0
      invariant ReadFraction(s[it..], power).1 == ReadFraction(s, 100000).1
    {
      assert s[it..][1..] == s[it + 1..];
      us := us + power * (s[it] as int - '0' as int);
      power := power / 10;
      it := it + 1;
    }
  }

  function ReadSeconds(s: string): (r: Parsed<(int, int)>)
    ensures r.Done? ==> r.rest == []
  {
    var sec := EatTwoDigits(s);
    if sec.Fail? then Fail
    else
      var f := if sec.rest != [] && sec.rest[0] == '.' then ReadFraction(sec.rest[1..], 100000) else (0, sec.rest);
      if f.1 != [] then Fail else Done((sec.value, f.0), [])
  }

  function ReadTime(s: string): Parsed<LocalTime> {
    var part := TimePart(s);
    var hour := EatTwoDigits(part);
    if hour.Fail? || Eat(hour.rest, ':').Fail? then Fail
    else
      var minute := EatTwoDigits(Eat(hour.rest, ':').rest);
      if minute.Fail? || Eat(minute.rest, ':').Fail? then Fail
      else
        var sec := ReadSeconds(Eat(minute.rest, ':').rest);
        if sec.Fail? then Fail
        else Done(LocalTime(hour.value, minute.value, sec.value.0, sec.value.1), s[|part|..])
  }

  // ----- times come back

  predicate Digits(s: string) {
    forall i :: 0 <= i < |s| ==> IsNumber(s[i])
  }

  lemma {:induction false} DecimalDigits(n: nat)
    ensures Digits(Decimal(n)) && (n >= 10 ==> |Decimal(n)| >= 2) && (n >= 100 ==> |Decimal(n)| >= 3)
  {
    if n >= 10 {
      DecimalDigits(n / 10);
    }
  }

  lemma {:induction false} TimePartJoins(a: string, s: string)
    requires forall i :: 0 <= i < |a| ==> IsTimeChar(a[i])
    ensures TimePart(a + s) == a + TimePart(s)
  {
    if a == [] {
      assert a + s == s;
    } else {
      assert (a + s)[1..] == a[1..] + s;
      TimePartJoins(a[1..], s);
    }
  }

  /** A field of two digits is read back; any other field makes the time malformed. */
  lemma {:induction false} FieldRead(n: int, s: string)
    ensures var r := EatTwoDigits(TimePart(Width2(n) + s));
      if 0 <= n <= 99 then r == Done(n, TimePart(s))
      else r.Done? ==> r.rest != [] && IsNumber(r.rest[0])
  {
    if n >= 0 {
      DecimalDigits(n);
      TimePartJoins(Width2(n), s);
      if n <= 99 {
        TwoDigitField(n, TimePart(s));
      }
    }
  }

  lemma {:induction false} TwoDigitField(n: nat, s: string)
    requires n <= 99
    ensures EatTwoDigits(Width2(n) + s) == Done(n, s)
  {
    if n < 10 {
      assert Width2(n) == [Digit(0), Digit(n)];
    } else {
      assert Decimal(n / 10) == [Digit(n / 10)];
      assert Width2(n) == [Digit(n / 10), Digit(n % 10)];
    }
    assert (Width2(n) + s)[2..] == s;
  }

  lemma {:induction false} ColonRead(s: string)
    ensures Eat(TimePart(":" + s), ':') == Done((), TimePart(s))
  {
    TimePartJoins(":", s);
  }

  lemma {:induction false} FractionDigits(us: nat, e: nat)
    ensures Digits(Fraction(us, e))
    decreases e
  {
    hide Decimal, Quotient, Left, Pow10;
    if us != 0 {
      DecimalDigits(Quotient(us, Pow10(e)));
      if e > 0 {
        FractionDigits(Left(us, Pow10(e)), e - 1);
      }
    }
  }

  /** The digits of fewer than 10^(e + 1) units are read back. */
  lemma {:induction false} FractionRead(us: nat, e: nat)
    requires us < Pow10(e + 1)
    ensures ReadFraction(Fraction(us, e), Pow10(e)) == (us, [])
  {
    if us != 0 {
      var p, d := Pow10(e), Quotient(us, Pow10(e));
      LeadingDigit(us, p);
      var s := Fraction(us, e);
      assert Decimal(d) == [Digit(d)];
      if e > 0 {
        assert p / 10 == Pow10(e - 1);
        FractionRead(Left(us, p), e - 1);
        assert s[1..] == Fraction(Left(us, p), e - 1);
      } else {
        assert s[1..] == [];
      }
    }
  }

  lemma LeadingDigit(us: nat, p: nat)
    requires p >= 1 && us < 10 * p
    ensures Quotient(us, p) < 10 && us == p * Quotient(us, p) + Left(us, p) && Left(us, p) < p
  {
  }

  /** Digits of weights below 10^e add up to less than 10^e. */
  lemma {:induction false} FractionBound(s: string, e: nat)
    requires Digits(s)
    ensures var power := if e == 0 then 0 else Pow10(e - 1);
      var r := ReadFraction(s, power); 0 <= r.0 < Pow10(e) && r.1 == []
    decreases |s|
  {
    if s != [] {
      FractionBound(s[1..], if e == 0 then 0 else e - 1);
      if e >= 1 {
        var p, d := Pow10(e - 1), s[0] as int - '0' as int;
        assert p / 10 == if e == 1 then 0 else Pow10(e - 2);
        DigitWeight(p, d);
      }
    }
  }

  lemma DigitWeight(p: nat, d: nat)
    requires d <= 9
    ensures 0 <= p * d <= 9 * p
  {
  }

  lemma {:induction false} PartOfFraction(us: int, rest: string)
    requires rest == [] || !IsTimeChar(rest[0])
    ensures TimePart(PrintedFraction(us) + rest) == PrintedFraction(us)
  {
    if us > 0 {
      FractionDigits(us, 5);
    }
    TimePartJoins(PrintedFraction(us), rest);
    assert PrintedFraction(us) + [] == PrintedFraction(us);
  }

  /** What is read after the seconds, when they are two digits. */
  lemma {:induction false} MicrosRead(us: int)
    ensures var s := PrintedFraction(us);
      var f := if s != [] && s[0] == '.' then ReadFraction(s[1..], 100000) else (0, s);
      f.1 == [] && (f.0 == us <==> 0 <= us < 1_000_000)
  {
    PowersOfTen();
    if us > 0 {
      var s := PrintedFraction(us);
      assert s[1..] == Fraction(us, 5);
      FractionDigits(us, 5);
      FractionBound(Fraction(us, 5), 6);
      if us < 1_000_000 {
        FractionRead(us, 5);
      }
    }
  }

  lemma {:induction false} SecondsRead(sec: int, us: int, rest: string)
    requires rest == [] || !IsTimeChar(rest[0])
    ensures var r := ReadSeconds(TimePart(Width2(sec) + (PrintedFraction(us) + rest)));
      r == Done((sec, us), []) <==> 0 <= sec <= 99 && 0 <= us < 1_000_000
  {
    hide ReadFraction, Width2, PrintedFraction, TimePart;
    FieldRead(sec, PrintedFraction(us) + rest);
    PartOfFraction(us, rest);
    MicrosRead(us);
  }

  /** Reading back a printed local time, followed by anything that cannot belong to it, gives that time
      and stops after it, exactly when the fields have two digits and the microseconds fit in six. */
  lemma {:induction false} TimeRoundTrip(t: LocalTime, rest: string)
    requires rest == [] || !IsTimeChar(rest[0])
    ensures ReadTime(PrintedTime(t) + rest) == Done(t, rest) <==> t.InRange()
  {
    hide ReadSeconds, Width2, PrintedFraction, TimePart, EatTwoDigits;
    var c := Width2(t.second) + (PrintedFraction(t.microsecond) + rest);
    var b := Width2(t.minute) + (":" + c);
    var s := Width2(t.hour) + (":" + b);
    assert PrintedTime(t) + rest == s by { TimeText(t, rest); }
    FieldRead(t.hour, ":" + b);
    ColonRead(b);
    FieldRead(t.minute, ":" + c);
    ColonRead(c);
    SecondsRead(t.second, t.microsecond, rest);
    if t.InRange() {
      assert TimePart(s) == PrintedTime(t) by { WholePart(t, rest); }
      assert s[|PrintedTime(t)|..] == rest;
    }
  }

  lemma {:induction false} TimeText(t: LocalTime, rest: string)
    ensures PrintedTime(t) + rest ==
      Width2(t.hour) + (":" + (Width2(t.minute) + (":" + (Width2(t.second) + (PrintedFraction(t.microsecond) + rest)))))
  {
    hide Width2, PrintedFraction;
  }

  lemma {:induction false} WholePart(t: LocalTime, rest: string)
    requires t.InRange() && (rest == [] || !IsTimeChar(rest[0]))
    ensures TimePart(PrintedTime(t) + rest) == PrintedTime(t)
  {
    DecimalDigits(t.hour);
    DecimalDigits(t.minute);
    DecimalDigits(t.second);
    FractionDigits(t.microsecond, 5);
    hide Decimal, Fraction;
    TimePartJoins(PrintedTime(t), rest);
    assert PrintedTime(t) + [] == PrintedTime(t);
  }

  // ----- the text of a time

  /** The digit at position i, 0 beyond the end. */
  function DigitAt(s: string, i: nat): int {
    if i < |s| then s[i] as int - '0' as int else 0
  }

  /** What is left of s from position i on. */
  function From(s: string, i: nat): string {
    if i < |s| then s[i..] else []
  }

  lemma {:induction false} FractionFrom(s: string, i: nat, power: nat)
    requires Digits(s)
    ensures ReadFraction(From(s, i), power).0 ==
      power * DigitAt(s, i) + ReadFraction(From(s, i + 1), power / 10).0
  {
    if i < |s| {
      assert s[i..][1..] == From(s, i + 1);
    }
  }

  lemma {:induction false} NoWeight(s: string)
    ensures ReadFraction(s, 0).0 == 0
  {
    if s != [] && IsNumber(s[0]) {
      NoWeight(s[1..]);
    }
  }

  /** The first six digits after the point count microseconds, from the left; the others are skipped. */
  lemma {:induction false} SixDigitsRead(s: string)
    requires Digits(s)
    ensures ReadFraction(s, 100000) ==
      (100000 * DigitAt(s, 0) + 10000 * DigitAt(s, 1) + 1000 * DigitAt(s, 2) + 100 * DigitAt(s, 3)
       + 10 * DigitAt(s, 4) + DigitAt(s, 5), [])
  {
    PowersOfTen();
    FractionBound(s, 6);
    hide ReadFraction, Digits, DigitAt;
    assert From(s, 0) == s;
    FractionFrom(s, 0, 100000);
    FractionFrom(s, 1, 10000);
    FractionFrom(s, 2, 1000);
    FractionFrom(s, 3, 100);
    FractionFrom(s, 4, 10);
    FractionFrom(s, 5, 1);
    NoWeight(From(s, 6));
  }

  /** Two digits each of hours, minutes and seconds with colons between them. */
  predicate ClockText(s: string) {
    |s| == 8 && s[2] == s[5] == ':' && Digits([s[0], s[1], s[3], s[4], s[6], s[7]])
  }

  lemma {:induction false} ClockDigits(s: string)
    requires ClockText(s)
    ensures IsNumber(s[0]) && IsNumber(s[1]) && IsNumber(s[3]) && IsNumber(s[4]) && IsNumber(s[6]) && IsNumber(s[7])
  {
    var d := [s[0], s[1], s[3], s[4], s[6], s[7]];
    assert d[0] == s[0] && d[1] == s[1] && d[2] == s[3] && d[3] == s[4] && d[4] == s[6] && d[5] == s[7];
  }

  /** The fields of a time in a text, with a fraction of any number of digits or none. */
  lemma {:induction false} TimeRead(s: string, f: string, rest: string)
    requires ClockText(s) && Digits(f) && (rest == [] || !IsTimeChar(rest[0]))
    ensures ReadTime(s + rest) ==
      Done(LocalTime(10 * DigitAt(s, 0) + DigitAt(s, 1), 10 * DigitAt(s, 3) + DigitAt(s, 4),
                     10 * DigitAt(s, 6) + DigitAt(s, 7), 0), rest)
    ensures ReadTime(s + ("." + f) + rest) ==
      Done(LocalTime(10 * DigitAt(s, 0) + DigitAt(s, 1), 10 * DigitAt(s, 3) + DigitAt(s, 4),
                     10 * DigitAt(s, 6) + DigitAt(s, 7),
                     100000 * DigitAt(f, 0) + 10000 * DigitAt(f, 1) + 1000 * DigitAt(f, 2) + 100 * DigitAt(f, 3)
                     + 10 * DigitAt(f, 4) + DigitAt(f, 5)), rest)
  {
    ClockDigits(s);
    assert forall i :: 0 <= i < |"." + f| ==> IsTimeChar(("." + f)[i]);
    hide ReadTime, ReadFraction, Digits, DigitAt, IsNumber, IsTimeChar;
    ClockRead(s, "", rest);
    assert s + "" + rest == s + rest;
    SixDigitsRead(f);
    ClockRead(s, "." + f, rest);
    assert ("." + f)[1..] == f;
  }

  lemma {:induction false} AllTime(s: string, tail: string, rest: string)
    requires ClockText(s) && (rest == [] || !IsTimeChar(rest[0]))
    requires forall i :: 0 <= i < |tail| ==> IsTimeChar(tail[i])
    ensures TimePart(s + tail + rest) == s + tail
  {
    ClockDigits(s);
    assert forall i :: 0 <= i < |s| ==> IsTimeChar(s[i]);
    TimePartJoins(s + tail, rest);
    assert TimePart(rest) == [] && s + tail + [] == s + tail;
  }

  lemma {:induction false} ClockRead(s: string, tail: string, rest: string)
    requires ClockText(s) && (rest == [] || !IsTimeChar(rest[0]))
    requires forall i :: 0 <= i < |tail| ==> IsTimeChar(tail[i])
    requires IsNumber(s[0]) && IsNumber(s[1]) && IsNumber(s[3]) && IsNumber(s[4]) && IsNumber(s[6]) && IsNumber(s[7])
    ensures ReadTime(s + tail + rest) ==
      var f := if tail != [] && tail[0] == '.' then ReadFraction(tail[1..], 100000) else (0, tail);
      if f.1 != [] then Fail
      else Done(LocalTime(10 * DigitAt(s, 0) + DigitAt(s, 1), 10 * DigitAt(s, 3) + DigitAt(s, 4),
                          10 * DigitAt(s, 6) + DigitAt(s, 7), f.0), rest)
  {
    hide ReadFraction, Digits;
    var all := s + tail;
    AllTime(s, tail, rest);
    hide TimePart, IsTimeChar;
    assert all[2..][1..] == all[3..] && all[3..][2..] == all[5..] && all[5..][1..] == all[6..];
    assert all[6..][2..] == tail;
    assert (all + rest)[|all|..] == rest;
  }
}
