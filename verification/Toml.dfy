/**
 The TOML writer and parser for strings and nested arrays of strings, on one line of text.
 */
module Toml {

  // ----- the writer

  const BACKSPACE: char := '\U{0008}'
  const FORM_FEED: char := '\U{000C}'

  /** The control characters that have an escape of their own. */
  predicate Named(c: char) {
    c == BACKSPACE || c == '\t' || c == '\n' || c == FORM_FEED || c == '\r'
  }

  /** The control characters the writer prints as a code. */
  predicate Coded(c: char) {
    c as int <= 0x1f && !Named(c)
  }

  function HexDigit(n: nat): char
    requires n < 16
  {
    if n < 10 then '0' + n as char else 'a' + (n - 10) as char
  }

  /** The code of a control character in hexadecimal, not padded. */
  function Hex(n: nat): (s: string)
    requires n <= 0x1f
    ensures 1 <= |s| <= 2
  {
    if n < 16 then [HexDigit(n)] else ['1', HexDigit(n - 16)]
  }

  function EscapeChar(c: char): (s: string)
    ensures s != []
  {
    if c == BACKSPACE then "\\b"
    else if c == '\t' then "\\t"
    else if c == '\n' then "\\n"
    else if c == FORM_FEED then "\\f"
    else if c == '\r' then "\\r"
    else if c == '\"' then "\\\""
    else if c == '\\' then "\\\\"
    else if c as int <= 0x1f then "\\u" + Hex(c as int)
    else [c]
  }

  function Escaped(s: string): string {
    if s == [] then [] else EscapeChar(s[0]) + Escaped(s[1..])
  }

  method EscapeString(s: string) returns (res: string)
    ensures res == Escaped(s)
  {
    res := "";
    for i := 0 to |s|
      invariant res + Escaped(s[i..]) == Escaped(s)
    {
      assert s[i..][1..] == s[i + 1..];
      assert (res + EscapeChar(s[i])) + Escaped(s[i + 1..]) == res + Escaped(s[i..]);
      res := res + EscapeChar(s[i]);
    }
  }

  datatype Value = Str(text: string) | Arr(items: seq<Value>)

  function Printed(v: Value): (s: string)
    ensures s != []
    decreases v, 0
  {
    match v
    case Str(text) => "\"" + Escaped(text) + "\""
    case Arr(items) => "[" + PrintedItems(items) + "]"
  }

  function PrintedItems(items: seq<Value>): string
    decreases items, 1
  {
    if items == [] then []
    else if |items| == 1 then Printed(items[0])
    else Printed(items[0]) + ", " + PrintedItems(items[1..])
  }

  // ----- the parser

  /** What a parsing function returns: an exception, or a value and what is left of the line. */
  datatype Parsed<T> = Fail | Done(value: T, rest: string)

  predicate IsNumber(c: char) {
    '0' <= c <= '9'
  }

  predicate IsHex(c: char) {
    IsNumber(c) || 'a' <= c <= 'f' || 'A' <= c <= 'F'
  }

  function HexToDigit(c: char): (n: nat)
    requires IsHex(c)
    ensures n < 16
  {
    if IsNumber(c) then c as int - '0' as int
    else 10 + c as int - (if 'a' <= c <= 'f' then 'a' as int else 'A' as int)
  }

  function Weighted(place: nat, digit: nat): nat {
    place * digit
  }

  /** Reads digits of weight place, place / 16, ... down to 1. */
  function ParseHex(s: string, place: nat): (r: Parsed<nat>)
    ensures r.Done? ==> |r.rest| <= |s|
    decreases place
  {
    if place == 0 then Done(0, s)
    else if s == [] || !IsHex(s[0]) then Fail
    else
      match ParseHex(s[1..], place / 16)
      case Fail => Fail
      case Done(low, rest) => Done(Weighted(place, HexToDigit(s[0])) + low, rest)
  }

  function Byte(n: nat): char
    requires n < 0x100
  {
    n as char
  }

  /** The bytes of a code point.  The second of three bytes keeps only five of its six bits. */
  function Utf8(code: nat): (s: string)
    requires code <= 0x10ffff
    ensures 1 <= |s| <= 4 && (code <= 0xffff ==> |s| <= 3)
  {
    if code <= 0x7f then [Byte(code)]
    else if code <= 0x7ff then [Byte(0xc0 + code / 0x40 % 0x20), Byte(0x80 + code % 0x40)]
    else if code <= 0xffff then
      [Byte(0xe0 + code / 0x1000 % 0x10), Byte(0x80 + code / 0x40 % 0x20), Byte(0x80 + code % 0x40)]
    else
      [Byte(0xf0 + code / 0x40000 % 8), Byte(0x80 + code / 0x1000 % 0x40), Byte(0x80 + code / 0x40 % 0x40),
        Byte(0x80 + code % 0x40)]
  }

  function ParseUnicode(s: string): (r: Parsed<string>)
    requires s != []
    ensures r.Done? ==> |r.rest| < |s|
  {
    match ParseHex(s[1..], if s[0] == 'U' then 0x10000000 else 0x1000)
    case Fail => Fail
    case Done(code, rest) =>
      if 0xd7ff < code < 0xe000 || code > 0x10ffff then Fail else Done(Utf8(code), rest)
  }

  /** What follows a backslash. */
  function ParseEscape(s: string): (r: Parsed<string>)
    ensures r.Done? ==> |r.rest| < |s|
  {
    if s == [] then Fail
    else if s[0] == 'b' then Done([BACKSPACE], s[1..])
    else if s[0] == 't' then Done("\t", s[1..])
    else if s[0] == 'n' then Done("\n", s[1..])
    else if s[0] == 'f' then Done([FORM_FEED], s[1..])
    else if s[0] == 'r' then Done("\r", s[1..])
    else if s[0] == '\"' then Done("\"", s[1..])
    else if s[0] == '\\' then Done("\\", s[1..])
    else if s[0] == 'u' || s[0] == 'U' then ParseUnicode(s)
    else Fail
  }

  /** The rest of a string literal, after its opening delimiter. */
  function ParseBody(s: string, delim: char): (r: Parsed<string>)
    ensures r.Done? ==> |r.rest| < |s|
    decreases |s|
  {
    if s == [] then Fail
    else if delim == '\"' && s[0] == '\\' then
      match ParseEscape(s[1..])
      case Fail => Fail
      case Done(c, rest) => Prepend(c, ParseBody(rest, delim))
    else if s[0] == delim then Done([], s[1..])
    else Prepend(s[..1], ParseBody(s[1..], delim))
  }

  function Prepend(c: string, r: Parsed<string>): Parsed<string> {
    if r.Done? then Done(c + r.value, r.rest) else Fail
  }

  function SkipBlanks(s: string): (r: string)
    ensures |r| <= |s|
  {
    if s != [] && (s[0] == ' ' || s[0] == '\t') then SkipBlanks(s[1..]) else s
  }

  method ConsumeWhitespace(s: string, start: nat) returns (it: nat)
    requires start <= |s|
    ensures start <= it <= |s| && s[it..] == SkipBlanks(s[start..])
    ensures (forall j :: start <= j < it ==> s[j] in " \t") && (it < |s| ==> s[it] !in " \t")
  {
    it := start;
    while it != |s| && (s[it] == ' ' || s[it] == '\t')
      invariant start <= it <= |s| && SkipBlanks(s[it..]) == SkipBlanks(s[start..])
      invariant forall j :: start <= j < it ==> s[j] in " \t"
    {
      assert s[it..][1..] == s[it + 1..];
      it := it + 1;
    }
  }

  /** Reads the literal whose opening delimiter is at position start, and the blanks after it. */
  method StringLiteral(s: string, start: nat, delim: char) returns (r: Parsed<string>)
    requires start < |s|
    ensures r == match ParseBody(s[start + 1..], delim)
                 case Fail => Fail
                 case Done(v, rest) => Done(v, SkipBlanks(rest))
  {
    var it := start + 1;
    var val := "";
    ghost var whole := ParseBody(s[start + 1..], delim);
    PrependNothing(whole);
    hide ParseEscape, Prepend, ParseBody, SkipBlanks;
    while it != |s|
      invariant start < it <= |s| && whole == Prepend(val, ParseBody(s[it..], delim))
    {
      BodyAt(s, it, delim);
      if delim == '\"' && s[it] == '\\' {
        var escape := ParseEscape(s[it + 1..]);
        if escape.Fail? {
          PrependFail(val);
          return Fail;
        }
        PrependTwice(val, escape.value, ParseBody(escape.rest, delim));
        val := val + escape.value;
        it := After(s, it, escape);
      } else if s[it] == delim {
        PrependEmpty(val, s[it + 1..]);
        var next := ConsumeWhitespace(s, it + 1);
        return Done(val, s[next..]);
      } else {
        PrependTwice(val, [s[it]], ParseBody(s[it + 1..], delim));
        val := val + [s[it]];
        it := it + 1;
      }
    }
    EndOfLine(s, delim);
    PrependFail(val);
    r := Fail;
  }

  /** The position after an escape whose backslash is at position it. */
  function After(s: string, it: nat, escape: Parsed<string>): (next: nat)
    requires it < |s| && escape.Done? && escape == ParseEscape(s[it + 1..])
    ensures it < next <= |s| && s[next..] == escape.rest
  {
    hide ParseEscape;
    EscapeSuffix(s[it + 1..]);
    |s| - |escape.rest|
  }

  lemma {:induction false} BodyAt(s: string, it: nat, delim: char)
    requires it < |s|
    ensures ParseBody(s[it..], delim) ==
      if delim == '\"' && s[it] == '\\' then
        var escape := ParseEscape(s[it + 1..]);
        if escape.Fail? then Fail else Prepend(escape.value, ParseBody(escape.rest, delim))
      else if s[it] == delim then Done([], s[it + 1..])
      else Prepend([s[it]], ParseBody(s[it + 1..], delim))
  {
    hide ParseEscape, Prepend;
    assert s[it..][1..] == s[it + 1..] && s[it..][..1] == [s[it]];
  }

  lemma {:induction false} EndOfLine(s: string, delim: char)
    ensures ParseBody(s[|s|..], delim) == Fail
  {
  }

  lemma {:induction false} PrependNothing(r: Parsed<string>)
    ensures Prepend([], r) == r
  {
    if r.Done? {
      assert [] + r.value == r.value;
    }
  }

  lemma {:induction false} PrependEmpty(c: string, rest: string)
    ensures Prepend(c, Done([], rest)) == Done(c, rest)
  {
    assert c + [] == c;
  }

  lemma {:induction false} PrependFail(c: string)
    ensures Prepend(c, Fail) == Fail
  {
  }

  lemma {:induction false} PrependTwice(a: string, b: string, r: Parsed<string>)
    ensures Prepend(a, Prepend(b, r)) == Prepend(a + b, r)
  {
    if r.Done? {
      assert a + (b + r.value) == (a + b) + r.value;
    }
  }

  lemma {:induction false} HexSuffix(s: string, place: nat)
    ensures var r := ParseHex(s, place); r.Done? ==> r.rest == s[|s| - |r.rest|..]
    decreases place
  {
    if place > 0 && s != [] && IsHex(s[0]) {
      HexSuffix(s[1..], place / 16);
    }
  }

  lemma {:induction false} UnicodeSuffix(s: string)
    requires s != []
    ensures var r := ParseUnicode(s); r.Done? ==> r.rest == s[|s| - |r.rest|..]
  {
    hide ParseHex;
    HexSuffix(s[1..], 0x1000);
    HexSuffix(s[1..], 0x10000000);
  }

  /** What an escape leaves is the end of what it was given. */
  lemma {:induction false} EscapeSuffix(s: string)
    ensures var r := ParseEscape(s); r.Done? ==> r.rest == s[|s| - |r.rest|..] && |r.rest| < |s|
  {
    hide ParseUnicode;
    if s != [] {
      UnicodeSuffix(s);
    }
  }

  // ----- strings come back

  /** A string without control characters other than those with an escape of their own. */
  predicate Plain(s: string) {
    forall i :: 0 <= i < |s| ==> !Coded(s[i])
  }

  function Value4(s: string): nat
    requires |s| >= 4 && IsHex(s[0]) && IsHex(s[1]) && IsHex(s[2]) && IsHex(s[3])
  {
    0x1000 * HexToDigit(s[0]) + (0x100 * HexToDigit(s[1]) + (0x10 * HexToDigit(s[2]) + HexToDigit(s[3])))
  }

  lemma {:induction false} HexStep(s: string, place: nat)
    requires place > 0
    ensures ParseHex(s, place) ==
      if s == [] || !IsHex(s[0]) then Fail
      else
        var low := ParseHex(s[1..], place / 16);
        if low.Fail? then Fail else Done(Weighted(place, HexToDigit(s[0])) + low.value, low.rest)
  {
    hide IsHex, HexToDigit, Weighted;
  }

  lemma {:induction false} OneDigit(s: string)
    ensures ParseHex(s, 1) == if |s| >= 1 && IsHex(s[0]) then Done(HexToDigit(s[0]), s[1..]) else Fail
  {
  }

  lemma {:induction false} TwoDigits(s: string)
    ensures ParseHex(s, 0x10) ==
      if |s| >= 2 && IsHex(s[0]) && IsHex(s[1]) then Done(0x10 * HexToDigit(s[0]) + HexToDigit(s[1]), s[2..]) else Fail
  {
    hide IsHex, HexToDigit, ParseHex;
    HexStep(s, 0x10);
    if s != [] {
      OneDigit(s[1..]);
    }
  }

  lemma {:induction false} ThreeDigits(s: string)
    ensures ParseHex(s, 0x100) ==
      if |s| >= 3 && IsHex(s[0]) && IsHex(s[1]) && IsHex(s[2])
      then Done(0x100 * HexToDigit(s[0]) + (0x10 * HexToDigit(s[1]) + HexToDigit(s[2])), s[3..]) else Fail
  {
    hide IsHex, HexToDigit, ParseHex;
    HexStep(s, 0x100);
    if s != [] {
      TwoDigits(s[1..]);
      assert |s| >= 3 ==> s[1..][2..] == s[3..];
    }
  }

  lemma {:induction false} FourDigits(s: string)
    ensures ParseHex(s, 0x1000) ==
      if |s| >= 4 && IsHex(s[0]) && IsHex(s[1]) && IsHex(s[2]) && IsHex(s[3]) then Done(Value4(s), s[4..]) else Fail
  {
    hide IsHex, HexToDigit, ParseHex;
    HexStep(s, 0x1000);
    if s != [] {
      ThreeDigits(s[1..]);
      assert |s| >= 4 ==> s[1..][3..] == s[4..];
    }
  }

  /** The text the writer produces for the characters of w, up to the closing quote and beyond. */
  function Text(w: string, rest: string): string {
    Escaped(w) + ("\"" + rest)
  }

  lemma {:induction false} TextNext(w: string, rest: string)
    requires w != []
    ensures Text(w, rest) == EscapeChar(w[0]) + Text(w[1..], rest)
  {
  }

  /** Hexadecimal digits in the text are characters of the string. */
  lemma {:induction false} DigitsAligned(w: string, rest: string, k: nat)
    requires k <= |Text(w, rest)| && forall i :: 0 <= i < k ==> IsHex(Text(w, rest)[i])
    ensures k <= |w| && Text(w, rest)[k..] == Text(w[k..], rest) && forall i :: 0 <= i < k ==> w[i] == Text(w, rest)[i]
  {
    if k > 0 {
      assert Text([], rest)[0] == '\"' && w != [];
      TextNext(w, rest);
      assert Text(w, rest)[0] == EscapeChar(w[0])[0];
      assert EscapeChar(w[0]) == [w[0]];
      var tail := Text(w[1..], rest);
      assert forall i :: 0 <= i < k - 1 ==> tail[i] == Text(w, rest)[i + 1];
      DigitsAligned(w[1..], rest, k - 1);
      assert Text(w, rest)[k..] == tail[k - 1..];
      assert w[1..][k - 1..] == w[k..];
    }
  }

  /** A character that is not coded comes back as itself. */
  lemma {:induction false} EscapeUndone(c: char, tail: string)
    requires !Coded(c)
    ensures ParseBody(EscapeChar(c) + tail, '\"') == Prepend([c], ParseBody(tail, '\"'))
  {
    hide ParseUnicode, Prepend;
    var text := EscapeChar(c) + tail;
    if |EscapeChar(c)| == 2 {
      assert text[1..][1..] == tail;
    } else {
      assert text[1..] == tail && text[..1] == [c];
    }
  }

  /** What a coded control character starts: its code, read with the digits that happen to follow. */
  ghost predicate CodeRead(c: char, tail: string, k: nat, bytes: string) {
    && 2 <= k <= 3 && k <= |tail| && (forall i :: 0 <= i < k ==> IsHex(tail[i]))
    && 1 <= |bytes| <= 3
    && (bytes[0] == c ==> |bytes| == 1 && k == 3)
  }

  lemma {:induction false} CodeBytes(c: char, code: nat)
    requires code <= 0xffff && c as int <= 0x1f && (if c as int == 0 then code < 0x1000 else code >= 0x1000)
    ensures Utf8(code)[0] == c ==> |Utf8(code)| == 1 && c as int == 0
  {
  }

  lemma {:induction false} CodeParsed(c: char, tail: string)
    requires Coded(c)
    ensures var u := ParseUnicode("u" + (Hex(c as int) + tail));
      ParseBody(EscapeChar(c) + tail, '\"') == if u.Fail? then Fail else Prepend(u.value, ParseBody(u.rest, '\"'))
  {
    hide Prepend, ParseUnicode, Hex;
    var text := EscapeChar(c) + tail;
    assert text[1..] == "u" + (Hex(c as int) + tail);
  }

  lemma {:induction false} CodeValue(digits: string)
    ensures ParseUnicode("u" + digits) ==
      if |digits| >= 4 && IsHex(digits[0]) && IsHex(digits[1]) && IsHex(digits[2]) && IsHex(digits[3])
        && Value4(digits) <= 0xffff && !(0xd7ff < Value4(digits) < 0xe000)
      then Done(Utf8(Value4(digits)), digits[4..]) else Fail
  {
    hide ParseHex, Utf8, IsHex, HexToDigit;
    assert ("u" + digits)[1..] == digits;
    FourDigits(digits);
    if |digits| >= 4 && IsHex(digits[0]) && IsHex(digits[1]) && IsHex(digits[2]) && IsHex(digits[3]) {
      assert Value4(digits) <= 0xffff;
    }
  }

  lemma {:induction false} CodeUndone(c: char, tail: string)
    returns (k: nat, bytes: string)
    requires Coded(c)
    ensures var r := ParseBody(EscapeChar(c) + tail, '\"');
      r.Done? ==> CodeRead(c, tail, k, bytes) && r == Prepend(bytes, ParseBody(tail[k..], '\"'))
  {
    hide Prepend, ParseUnicode, Utf8, ParseBody, IsHex, EscapeChar, Value4;
    var hex := Hex(c as int);
    var digits := hex + tail;
    CodeParsed(c, tail);
    CodeValue(digits);
    k, bytes := 4 - |hex|, [c];
    var u := ParseUnicode("u" + digits);
    if u.Done? {
      assert forall i :: 0 <= i < k ==> tail[i] == digits[i + |hex|];
      assert digits[4..] == tail[k..];
      CodeSize(c, digits);
      bytes := u.value;
      CodeBytes(c, Value4(digits));
      assert c as int == 0 ==> |hex| == 1;
    }
  }

  lemma {:induction false} CodeSize(c: char, digits: string)
    requires c as int <= 0x1f && |digits| >= 4 && Hex(c as int) <= digits
    requires IsHex(digits[0]) && IsHex(digits[1]) && IsHex(digits[2]) && IsHex(digits[3])
    ensures Value4(digits) <= 0xffff
    ensures if c as int == 0 then Value4(digits) < 0x1000 else Value4(digits) >= 0x1000
  {
    if c as int < 16 {
      assert digits[0] == HexDigit(c as int);
      assert HexToDigit(digits[0]) == c as int;
    } else {
      assert digits[0] == '1';
      assert HexToDigit(digits[0]) == 1;
    }
  }

  /** Reading back what the writer prints for w stops at the closing quote if it succeeds, and gives w
      exactly when w is plain. */
  lemma {:induction false} StringRoundTrip(w: string, rest: string)
    ensures var r := ParseBody(Text(w, rest), '\"');
      && (r.Done? ==> r.rest == rest && |r.value| <= |w|)
      && (r.Done? && r.value == w <==> Plain(w))
    decreases |w|
  {
    hide Coded, Escaped;
    if w == [] {
      EmptyText(rest);
    } else {
      var c, tail := w[0], Text(w[1..], rest);
      TextNext(w, rest);
      if !Coded(c) {
        EscapeUndone(c, tail);
        StringRoundTrip(w[1..], rest);
        assert Plain(w) <==> Plain(w[1..]) by { PlainNext(w); }
        assert w == [c] + w[1..];
      } else {
        var k, bytes := CodeUndone(c, tail);
        if ParseBody(Text(w, rest), '\"').Done? {
          DigitsAligned(w[1..], rest, k);
          StringRoundTrip(w[1..][k..], rest);
        }
      }
    }
  }

  lemma {:induction false} EmptyText(rest: string)
    ensures ParseBody(Text([], rest), '\"') == Done([], rest)
  {
    assert Text([], rest) == "\"" + rest && ("\"" + rest)[1..] == rest;
  }

  lemma {:induction false} PlainNext(w: string)
    requires w != []
    ensures Plain(w) <==> !Coded(w[0]) && Plain(w[1..])
  {
    hide Coded;
    assert forall i :: 1 <= i < |w| ==> w[i] == w[1..][i - 1];
  }

  // ----- arrays

  function ParseString(s: string): (r: Parsed<Value>)
    requires s != []
    ensures r.Done? ==> |r.rest| < |s| && r.value.Str?
  {
    // three delimiters start a multi-line string, which is not part of this model
    if |s| >= 3 && s[1] == s[0] && s[2] == s[0] then Fail
    else
      match ParseBody(s[1..], s[0])
      case Fail => Fail
      case Done(text, rest) => Done(Str(text), SkipBlanks(rest))
  }

  /** The line ends here, or a comment starts: there is no next line to go on with. */
  predicate LineOver(s: string) {
    s == [] || s[0] == '#'
  }

  function ParseValue(s: string): (r: Parsed<Value>)
    ensures r.Done? ==> |r.rest| < |s|
    decreases |s|, 1
  {
    if s == [] then Fail
    else if s[0] == '\"' || s[0] == '\'' then ParseString(s)
    else if s[0] == '[' then ParseArray(s)
    else Fail
  }

  function ParseArray(s: string): (r: Parsed<Value>)
    requires s != []
    ensures r.Done? ==> |r.rest| < |s| && r.value.Arr?
    decreases |s|, 0
  {
    var b := SkipBlanks(s[1..]);
    if LineOver(b) then Fail
    else if b[0] == ']' then Done(Arr([]), b[1..])
    else if b[0] == '\"' || b[0] == '\'' then AsArray(ParseStrings(b))
    else if b[0] == '[' then AsArray(ParseArrays(b))
    else Fail
  }

  function AsArray(r: Parsed<seq<Value>>): Parsed<Value> {
    if r.Done? then Done(Arr(r.value), r.rest) else Fail
  }

  function Before(v: Value, r: Parsed<seq<Value>>): Parsed<seq<Value>> {
    if r.Done? then Done([v] + r.value, r.rest) else Fail
  }

  /** The items of an array of strings: any character ends it where a comma is missing. */
  function ParseStrings(s: string): (r: Parsed<seq<Value>>)
    ensures r.Done? ==> |r.rest| <= |s|
    decreases |s|, 2
  {
    if s == [] then Done([], [])
    else if s[0] == ']' then Done([], s[1..])
    else
      var v := ParseValue(s);
      if v.Fail? || !v.value.Str? then Fail
      else
        var b := SkipBlanks(v.rest);
        if LineOver(b) then Fail
        else if b[0] != ',' then Done([v.value], b[1..])
        else
          var n := SkipBlanks(b[1..]);
          if LineOver(n) then Fail else Before(v.value, ParseStrings(n))
  }

  /** The items of an array of arrays. */
  function ParseArrays(s: string): (r: Parsed<seq<Value>>)
    ensures r.Done? ==> |r.rest| <= |s|
    decreases |s|, 2
  {
    if s == [] then Fail
    else if s[0] == ']' then Done([], s[1..])
    else if s[0] != '[' then Fail
    else
      var v := ParseArray(s);
      if v.Fail? then Fail
      else
        var b := SkipBlanks(v.rest);
        if LineOver(b) then Fail
        else if b[0] == ']' then Done([v.value], b[1..])
        else if b[0] != ',' then Fail
        else
          var n := SkipBlanks(b[1..]);
          if LineOver(n) then Fail else Before(v.value, ParseArrays(n))
  }

  // ----- the loops of the writer and of the parser

  method WriteArray(items: seq<Value>) returns (out: string)
    ensures out == Printed(Arr(items))
  {
    out := "[";
    RestAll(items);
    RestNone(items);
    PrintedArray(items);
    hide Printed, PrintedItems, Rest;
    for i := 0 to |items|
      invariant out + Rest(items, i) == "[" + PrintedItems(items)
    {
      out := WriteItem(out, items, i);
    }
    assert out + [] == out;
    out := out + "]";
  }

  method WriteItem(before: string, items: seq<Value>, i: nat) returns (out: string)
    requires i < |items|
    ensures out + Rest(items, i + 1) == before + Rest(items, i)
  {
    RestNext(items, i);
    var sep := "";
    if i > 0 {
      sep := ", ";
    }
    hide Printed, PrintedItems, Rest;
    out := (before + sep) + Printed(items[i]);
    Regroup(before, sep, Printed(items[i]), Rest(items, i + 1));
  }

  lemma {:induction false} PrintedArray(items: seq<Value>)
    ensures Printed(Arr(items)) == "[" + PrintedItems(items) + "]"
  {
  }

  lemma {:induction false} Regroup(a: string, b: string, c: string, d: string)
    ensures ((a + b) + c) + d == a + ((b + c) + d)
  {
  }

  /** What is still to be printed from item i on, with the comma in front of it. */
  function Rest(items: seq<Value>, i: nat): string
    requires i <= |items|
  {
    if i == |items| then [] else (if i > 0 then ", " else "") + PrintedItems(items[i..])
  }

  lemma {:induction false} RestAll(items: seq<Value>)
    ensures Rest(items, 0) == PrintedItems(items)
  {
    assert items[0..] == items;
  }

  lemma {:induction false} RestNone(items: seq<Value>)
    ensures Rest(items, |items|) == []
  {
  }

  lemma {:induction false} RestNext(items: seq<Value>, i: nat)
    requires i < |items|
    ensures Rest(items, i) == (if i > 0 then ", " else "") + Printed(items[i]) + Rest(items, i + 1)
  {
    assert items[i..][1..] == items[i + 1..];
  }

  method ParseValueArray(s: string) returns (r: Parsed<seq<Value>>)
    ensures r == ParseStrings(s)
  {
    var it, items := s, [];
    JoinedNothing(ParseStrings(s));
    while it != [] && it[0] != ']'
      invariant ParseStrings(s) == Joined(items, ParseStrings(it))
      decreases |it|
    {
      var v := ParseValue(it);
      if v.Fail? || !v.value.Str? {
        return Fail;
      }
      var b := SkipBlanks(v.rest);
      if LineOver(b) {
        return Fail;
      }
      if b[0] != ',' {
        return Done(items + [v.value], b[1..]);
      }
      var n := SkipBlanks(b[1..]);
      if LineOver(n) {
        return Fail;
      }
      JoinedNext(items, v.value, ParseStrings(n));
      items, it := items + [v.value], n;
    }
    assert items + [] == items;
    r := Done(items, if it == [] then it else it[1..]);
  }

  method ParseObjectArray(s: string) returns (r: Parsed<seq<Value>>)
    ensures r == ParseArrays(s)
  {
    var it, items := s, [];
    JoinedNothing(ParseArrays(s));
    while it != [] && it[0] != ']'
      invariant ParseArrays(s) == Joined(items, ParseArrays(it))
      decreases |it|
    {
      if it[0] != '[' {
        return Fail;
      }
      var v := ParseArray(it);
      if v.Fail? {
        return Fail;
      }
      var b := SkipBlanks(v.rest);
      if LineOver(b) {
        return Fail;
      }
      if b[0] != ',' {
        return if b[0] == ']' then Done(items + [v.value], b[1..]) else Fail;
      }
      var n := SkipBlanks(b[1..]);
      if LineOver(n) {
        return Fail;
      }
      JoinedNext(items, v.value, ParseArrays(n));
      items, it := items + [v.value], n;
    }
    assert items + [] == items;
    r := if it == [] then Fail else Done(items, it[1..]);
  }

  function Joined(items: seq<Value>, r: Parsed<seq<Value>>): Parsed<seq<Value>> {
    if r.Done? then Done(items + r.value, r.rest) else Fail
  }

  lemma {:induction false} JoinedNothing(r: Parsed<seq<Value>>)
    ensures Joined([], r) == r
  {
    if r.Done? {
      assert [] + r.value == r.value;
    }
  }

  lemma {:induction false} JoinedNext(items: seq<Value>, v: Value, r: Parsed<seq<Value>>)
    ensures Joined(items, Before(v, r)) == Joined(items + [v], r)
  {
    if r.Done? {
      assert items + ([v] + r.value) == (items + [v]) + r.value;
    }
  }

  // ----- arrays come back

  /** Every array holds strings only or arrays only, and every string is plain. */
  predicate Good(v: Value)
    decreases v
  {
    match v
    case Str(text) => Plain(text)
    case Arr(items) =>
      && (forall i :: 0 <= i < |items| ==> Good(items[i]))
      && (forall i :: 0 <= i < |items| ==> items[i].Str? == items[0].Str?)
  }

  /** r is a reading of v in front of rest: if it succeeds it stops at rest, and it gives v exactly when v is good. */
  ghost predicate Reads<T>(r: Parsed<T>, v: T, good: bool, rest: string) {
    (r.Done? ==> r.rest == rest) && (r.Done? && r.value == v <==> good)
  }

  /** What follows an item: it cannot be taken for blanks or for part of the item. */
  predicate Follows(rest: string) {
    rest != [] && (rest[0] == ',' || rest[0] == ']')
  }

  lemma {:induction false} StringRead(w: string, rest: string)
    requires Follows(rest)
    ensures Reads(ParseString(Printed(Str(w)) + rest), Str(w), Plain(w), rest)
  {
    hide ParseBody, Plain;
    var s := Printed(Str(w)) + rest;
    StringRoundTrip(w, rest);
    assert s[1..] == Text(w, rest);
    if w == [] {
      assert s[2] == rest[0];
    } else {
      assert s[1] == EscapeChar(w[0])[0] != '\"';
    }
  }

  /** Every item is a string, and all are plain. */
  predicate PlainStrings(items: seq<Value>) {
    forall i :: 0 <= i < |items| ==> items[i].Str? && Plain(items[i].text)
  }

  predicate GoodArrays(items: seq<Value>) {
    forall i :: 0 <= i < |items| ==> items[i].Arr? && Good(items[i])
  }

  /** The items as printed, with the closing bracket and what follows. */
  function Line(items: seq<Value>, rest: string): string {
    PrintedItems(items) + ("]" + rest)
  }

  /** What follows the first item. */
  function Tail(items: seq<Value>, rest: string): (s: string)
    requires items != []
    ensures Follows(s)
  {
    if |items| == 1 then "]" + rest else ", " + Line(items[1..], rest)
  }

  lemma {:induction false} ItemsSplit(items: seq<Value>)
    requires items != []
    ensures PrintedItems(items) ==
      if |items| == 1 then Printed(items[0]) else (Printed(items[0]) + ", ") + PrintedItems(items[1..])
  {
    hide Printed;
  }

  lemma {:induction false} Reassociate(a: string, b: string, c: string, d: string)
    ensures ((a + b) + c) + d == a + (b + (c + d))
  {
  }

  lemma {:induction false} LineSplits(items: seq<Value>, rest: string)
    requires items != []
    ensures Line(items, rest) == Printed(items[0]) + Tail(items, rest)
  {
    ItemsSplit(items);
    hide Printed, PrintedItems;
    if |items| > 1 {
      Reassociate(Printed(items[0]), ", ", PrintedItems(items[1..]), "]" + rest);
    }
  }

  lemma {:induction false} FollowsUnskipped(rest: string)
    requires Follows(rest)
    ensures SkipBlanks(rest) == rest && !LineOver(rest)
  {
  }

  /** After a comma and a blank comes the next item. */
  lemma {:induction false} NextItem(items: seq<Value>, rest: string)
    requires |items| > 1
    ensures var b := Tail(items, rest); b[0] == ',' && SkipBlanks(b[1..]) == Line(items[1..], rest)
    ensures !LineOver(Line(items[1..], rest))
  {
    var next := Line(items[1..], rest);
    assert Tail(items, rest)[1..] == " " + next && (" " + next)[1..] == next;
    ItemStarts(items[1..], rest);
  }

  lemma {:induction false} ItemStarts(items: seq<Value>, rest: string)
    requires items != []
    ensures var s := Line(items, rest);
      s != [] && s[0] == (if items[0].Str? then '\"' else '[') && SkipBlanks(s) == s && !LineOver(s)
  {
    LineSplits(items, rest);
    PrintedStarts(items[0]);
  }

  lemma {:induction false} PrintedStarts(v: Value)
    ensures Printed(v)[0] == if v.Str? then '\"' else '['
  {
  }

  /** A list comes back when its first item and the others do. */
  lemma {:induction false} ListRead(items: seq<Value>, v: Value, r: Parsed<seq<Value>>, first: bool, others: bool,
                                    rest: string)
    requires |items| > 1 && (v == items[0] <==> first) && Reads(r, items[1..], others, rest)
    ensures Reads(Before(v, r), items, first && others, rest)
  {
    if r.Done? {
      var all := [v] + r.value;
      assert all[0] == v && all[1..] == r.value;
      assert items == [items[0]] + items[1..];
    }
  }

  lemma {:induction false} PlainStringsNext(items: seq<Value>)
    requires items != [] && items[0].Str?
    ensures PlainStrings(items) <==> Plain(items[0].text) && PlainStrings(items[1..])
  {
    hide Plain;
    assert forall i :: 1 <= i < |items| ==> items[i] == items[1..][i - 1];
  }

  lemma {:induction false} StringsStep(s: string, tail: string, v: Parsed<Value>)
    requires s != [] && s[0] == '\"' && v == ParseString(s) && Follows(tail) && (v.Done? ==> v.rest == tail)
    ensures ParseStrings(s) ==
      if v.Fail? then Fail
      else if tail[0] != ',' then Done([v.value], tail[1..])
      else
        var n := SkipBlanks(tail[1..]);
        if LineOver(n) then Fail else Before(v.value, ParseStrings(n))
  {
    hide ParseString, ParseArray;
    FollowsUnskipped(tail);
  }

  /** Reading an array of strings. */
  lemma {:induction false} StringsRead(items: seq<Value>, rest: string)
    requires items != []
    ensures Reads(ParseStrings(Line(items, rest)), items, PlainStrings(items), rest)
    decreases |items|
  {
    hide Plain, ParseString, ParseArray, Printed, PrintedItems, ParseStrings, Line, LineOver, SkipBlanks;
    var s, tail := Line(items, rest), Tail(items, rest);
    LineSplits(items, rest);
    ItemStarts(items, rest);
    if items[0].Str? {
      var v := ParseString(s);
      StringRead(items[0].text, tail);
      StringsStep(s, tail, v);
      PlainStringsNext(items);
      if |items| > 1 {
        NextItem(items, rest);
        StringsRead(items[1..], rest);
        if v.Done? {
          ListRead(items, v.value, ParseStrings(Line(items[1..], rest)), Plain(items[0].text),
            PlainStrings(items[1..]), rest);
        }
      } else {
        assert tail[1..] == rest;
        assert v.Done? && [v.value] == items ==> v.value == items[0];
      }
    } else {
      NotAString(s);
    }
  }

  lemma {:induction false} NotAString(s: string)
    requires s != [] && s[0] == '['
    ensures ParseStrings(s) == Fail
  {
    hide ParseArray;
  }

  lemma {:induction false} ArraysStep(s: string, tail: string, v: Parsed<Value>)
    requires s != [] && s[0] == '[' && v == ParseArray(s) && Follows(tail) && (v.Done? ==> v.rest == tail)
    ensures ParseArrays(s) ==
      if v.Fail? then Fail
      else if tail[0] != ',' then Done([v.value], tail[1..])
      else
        var n := SkipBlanks(tail[1..]);
        if LineOver(n) then Fail else Before(v.value, ParseArrays(n))
  {
    hide ParseArray;
    FollowsUnskipped(tail);
  }

  lemma {:induction false} GoodArraysNext(items: seq<Value>)
    requires items != [] && items[0].Arr?
    ensures GoodArrays(items) <==> Good(items[0]) && GoodArrays(items[1..])
  {
    hide Good;
    assert forall i :: 1 <= i < |items| ==> items[i] == items[1..][i - 1];
  }

  /** Reading an array of arrays. */
  lemma {:induction false} ArraysRead(items: seq<Value>, rest: string)
    requires items != []
    ensures Reads(ParseArrays(Line(items, rest)), items, GoodArrays(items), rest)
    decreases items, 0
  {
    hide Good, ParseArray, Printed, PrintedItems, ParseArrays, Line, LineOver, SkipBlanks;
    var s, tail := Line(items, rest), Tail(items, rest);
    LineSplits(items, rest);
    ItemStarts(items, rest);
    if items[0].Arr? {
      var v := ParseArray(s);
      ArrayRead(items[0], tail);
      ArraysStep(s, tail, v);
      GoodArraysNext(items);
      if |items| > 1 {
        NextItem(items, rest);
        ArraysRead(items[1..], rest);
        if v.Done? {
          ListRead(items, v.value, ParseArrays(Line(items[1..], rest)), Good(items[0]), GoodArrays(items[1..]), rest);
        }
      } else {
        assert tail[1..] == rest;
        assert v.Done? && [v.value] == items ==> v.value == items[0];
      }
    } else {
      NotAnArray(s);
    }
  }

  lemma {:induction false} NotAnArray(s: string)
    requires s != [] && s[0] == '\"'
    ensures ParseArrays(s) == Fail
  {
  }

  lemma {:induction false} GoodItems(items: seq<Value>)
    requires items != []
    ensures Good(Arr(items)) <==> if items[0].Str? then PlainStrings(items) else GoodArrays(items)
  {
    hide Plain;
    if items[0].Str? && PlainStrings(items) {
      assert forall i :: 0 <= i < |items| ==> Good(items[i]);
    }
    if items[0].Str? && Good(Arr(items)) {
      forall i | 0 <= i < |items|
        ensures items[i].Str? && Plain(items[i].text)
      {
        assert Good(items[i]);
      }
    }
  }

  lemma {:induction false} ArrayText(items: seq<Value>, rest: string)
    ensures var s := Printed(Arr(items)) + rest;
      s != [] && s[1..] == (if items == [] then "]" + rest else Line(items, rest))
  {
    PrintedArray(items);
    hide Printed;
  }

  /** Reading back what the writer prints for a nested array stops where the text of the array ends
      if it succeeds, and gives that array exactly when every array in it holds strings only or
      arrays only and every string is plain. */
  lemma {:induction false} ArrayRead(v: Value, rest: string)
    requires v.Arr?
    ensures Reads(ParseArray(Printed(v) + rest), v, Good(v), rest)
    decreases v, 1
  {
    hide Good, Printed, PrintedItems, ParseStrings, ParseArrays, Line;
    var items := v.items;
    ArrayText(items, rest);
    if items == [] {
      assert Good(v) by { EmptyGood(v); }
      assert ("]" + rest)[1..] == rest;
    } else {
      ItemStarts(items, rest);
      GoodItems(items);
      if items[0].Str? {
        StringsRead(items, rest);
      } else {
        ArraysRead(items, rest);
      }
    }
  }

  lemma {:induction false} EmptyGood(v: Value)
    requires v == Arr([])
    ensures Good(v)
  {
  }
}
