/**
 The text of TOML strings, character by character: the escapes, the number that the digits of a
 Unicode escape denote, and the bytes of that code point.
 */
module TomlEscapes {
  import opened Toml

  // ----- the bytes of a code point

  // The bytes carry the bits of the code point, most significant first, behind the markers of table 3-6 of the
  // Unicode standard.

  lemma {:induction false} OneByteDecodes(code: nat)
    requires code <= 0x7f
    ensures |Utf8(code)| == 1 && Utf8(code)[0] as int == code
  {
    assert Utf8(code) == [Byte(code)];
  }

  lemma {:induction false} TwoBytesDecode(code: nat)
    requires 0x80 <= code <= 0x7ff
    ensures |Utf8(code)| == 2
    ensures 0xc0 <= Utf8(code)[0] as int < 0xe0 && 0x80 <= Utf8(code)[1] as int < 0xc0
    ensures (Utf8(code)[0] as int - 0xc0) * 0x40 + (Utf8(code)[1] as int - 0x80) == code
  {
    assert code / 0x40 < 0x20;
  }

  /** Three bytes lose bit 11: they stand for the code point if and only if that bit is 0. */
  lemma {:induction false} ThreeBytesDecode(code: nat)
    requires 0x800 <= code <= 0xffff
    ensures |Utf8(code)| == 3 && 0xe0 <= Utf8(code)[0] as int < 0xf0
    ensures 0x80 <= Utf8(code)[1] as int < 0xc0 && 0x80 <= Utf8(code)[2] as int < 0xc0
    ensures
      (Utf8(code)[0] as int - 0xe0) * 0x1000 + (Utf8(code)[1] as int - 0x80) * 0x40 + (Utf8(code)[2] as int - 0x80)
      == if code / 0x800 % 2 == 0 then code else code - 0x800
  {
    ThreeFields(code);
  }

  lemma {:induction false} FourBytesDecode(code: nat)
    requires 0x10000 <= code <= 0x10ffff
    ensures |Utf8(code)| == 4
    ensures 0xf0 <= Utf8(code)[0] as int < 0xf8 && 0x80 <= Utf8(code)[1] as int < 0xc0
    ensures 0x80 <= Utf8(code)[2] as int < 0xc0 && 0x80 <= Utf8(code)[3] as int < 0xc0
    ensures (Utf8(code)[0] as int - 0xf0) * 0x40000 + (Utf8(code)[1] as int - 0x80) * 0x1000
      + (Utf8(code)[2] as int - 0x80) * 0x40 + (Utf8(code)[3] as int - 0x80) == code
  {
    FourFields(code);
  }

  lemma {:induction false} ThreeFields(code: nat)
    requires code <= 0xffff
    ensures code / 0x1000 < 0x10
    ensures code / 0x1000 * 0x1000 + code / 0x40 % 0x20 * 0x40 + code % 0x40
      == if code / 0x800 % 2 == 0 then code else code - 0x800
  {
    var x, h := code / 0x40, code % 0x40;
    assert code == 0x40 * x + h;
    assert x / 0x20 == code / 0x800 && x / 0x40 == code / 0x1000;
  }

  lemma {:induction false} FourFields(code: nat)
    requires code <= 0x10ffff
    ensures code / 0x40000 < 8
    ensures code / 0x40000 * 0x40000 + code / 0x1000 % 0x40 * 0x1000 + code / 0x40 % 0x40 * 0x40 + code % 0x40 == code
  {
    var x, y := code / 0x40, code / 0x1000;
    assert x / 0x40 == y && y / 0x40 == code / 0x40000;
  }

  /** Two code points with the same bytes are the same, or are of three bytes and differ in bit 11 alone. */
  lemma {:induction false} Utf8Distinct(code: nat, other: nat)
    requires code < other <= 0x10ffff
    ensures Utf8(code) == Utf8(other) <==>
      0x800 <= code && other <= 0xffff && code / 0x800 % 2 == 0 && other == code + 0x800
  {
    hide Utf8;
    Decodes(code);
    Decodes(other);
    if 0x800 <= code && other <= 0xffff && code / 0x800 % 2 == 0 && other == code + 0x800 {
      SameBytes(code);
    } else if Utf8(code) == Utf8(other) {
      assert false;
    }
  }

  /** What Utf8Distinct needs of the bytes. */
  lemma {:induction false} Decodes(code: nat)
    requires code <= 0x10ffff
    ensures |Utf8(code)| == if code <= 0x7f then 1 else if code <= 0x7ff then 2 else if code <= 0xffff then 3 else 4
    ensures |Utf8(code)| == 1 ==> Utf8(code)[0] as int == code
    ensures |Utf8(code)| == 2 ==> (Utf8(code)[0] as int - 0xc0) * 0x40 + (Utf8(code)[1] as int - 0x80) == code
    ensures |Utf8(code)| == 3 ==>
      (Utf8(code)[0] as int - 0xe0) * 0x1000 + (Utf8(code)[1] as int - 0x80) * 0x40 + (Utf8(code)[2] as int - 0x80)
      == if code / 0x800 % 2 == 0 then code else code - 0x800
    ensures |Utf8(code)| == 4 ==>
      ((Utf8(code)[0] as int - 0xf0) * 0x40000 + (Utf8(code)[1] as int - 0x80) * 0x1000
       + (Utf8(code)[2] as int - 0x80) * 0x40 + (Utf8(code)[3] as int - 0x80)) == code
  {
    hide Utf8;
    if code <= 0x7f {
      OneByteDecodes(code);
    } else if code <= 0x7ff {
      TwoBytesDecode(code);
    } else if code <= 0xffff {
      ThreeBytesDecode(code);
    } else {
      FourBytesDecode(code);
    }
  }

  lemma {:induction false} SameBytes(code: nat)
    requires 0x800 <= code && code + 0x800 <= 0xffff && code / 0x800 % 2 == 0
    ensures Utf8(code) == Utf8(code + 0x800)
  {
    LowBits(code);
    HighBits(code);
  }

  lemma {:induction false} LowBits(code: nat)
    ensures (code + 0x800) % 0x40 == code % 0x40 && (code + 0x800) / 0x40 % 0x20 == code / 0x40 % 0x20
  {
    var x := code / 0x40;
    assert (code + 0x800) / 0x40 == x + 0x20;
  }

  lemma {:induction false} HighBits(code: nat)
    requires code / 0x800 % 2 == 0
    ensures (code + 0x800) / 0x1000 == code / 0x1000
  {
    var h := code / 0x1000;
    assert 0x1000 * h <= code < 0x1000 * h + 0x800;
  }

  // ----- hexadecimal numbers

  /** The character c is the hexadecimal digit d, in lower or upper case. */
  predicate Shows(c: char, d: nat) {
    d < 16 && (c == "0123456789abcdef"[d] || c == "0123456789ABCDEF"[d])
  }

  /** The characters of h are the digits d. */
  predicate ShowsAll(h: string, d: seq<nat>) {
    |h| == |d| && forall i :: 0 <= i < |d| ==> Shows(h[i], d[i])
  }

  lemma {:induction false} DigitShown(c: char, d: nat)
    requires Shows(c, d)
    ensures IsHex(c) && HexToDigit(c) == d
  {
  }

  lemma {:induction false} HexShown(c: char)
    ensures IsHex(c) <==> c in "0123456789abcdefABCDEF"
  {
  }

  /** The weight of the first of k digits. */
  function Place(k: nat): (place: nat)
    ensures k > 0 ==> place > 0
  {
    if k == 0 then 0 else if k == 1 then 1 else 16 * Place(k - 1)
  }

  function Number(d: seq<nat>): nat {
    if d == [] then 0 else Weighted(Place(|d|), d[0]) + Number(d[1..])
  }

  lemma {:induction false} NumberRead(h: string, d: seq<nat>, rest: string)
    requires ShowsAll(h, d)
    ensures ParseHex(h + rest, Place(|d|)) == Done(Number(d), rest)
  {
    if d == [] {
      assert h + rest == rest;
    } else {
      DigitShown(h[0], d[0]);
      assert (h + rest)[1..] == h[1..] + rest;
      NumberRead(h[1..], d[1..], rest);
      assert Place(|d|) / 16 == Place(|d| - 1);
    }
  }

  lemma {:induction false} NumberRefused(s: string, k: nat)
    requires |s| < k || exists i :: 0 <= i < k && !IsHex(s[i])
    ensures ParseHex(s, Place(k)) == Fail
    decreases k
  {
    assert Place(k) / 16 == Place(k - 1);
    if s != [] && IsHex(s[0]) {
      if |s| >= k {
        var i :| 0 <= i < k && !IsHex(s[i]);
        assert !IsHex(s[1..][i - 1]);
      }
      NumberRefused(s[1..], k - 1);
    }
  }

  lemma {:induction false} NumberFrom(d: seq<nat>, i: nat)
    requires i < |d|
    ensures Number(d[i..]) == Place(|d| - i) * d[i] + Number(d[i + 1..])
  {
    assert d[i..][1..] == d[i + 1..];
  }

  lemma {:induction false} Places()
    ensures Place(1) == 1 && Place(2) == 0x10 && Place(3) == 0x100 && Place(4) == 0x1000
    ensures Place(5) == 0x1_0000 && Place(6) == 0x10_0000 && Place(7) == 0x100_0000 && Place(8) == 0x1000_0000
  {
    assert Place(3) == 0x100;
    assert Place(5) == 0x1_0000;
    assert Place(7) == 0x100_0000;
  }

  lemma {:induction false} FourDigitNumber(d: seq<nat>)
    requires |d| == 4
    ensures Number(d) == d[0] * 0x1000 + d[1] * 0x100 + d[2] * 0x10 + d[3]
  {
    Places();
    assert d[0..] == d && d[4..] == [] && Number([]) == 0;
    hide Number, Place;
    NumberFrom(d, 0);
    NumberFrom(d, 1);
    NumberFrom(d, 2);
    NumberFrom(d, 3);
  }

  lemma {:induction false} EightDigitNumber(d: seq<nat>)
    requires |d| == 8
    ensures Number(d) == d[0] * 0x1000_0000 + d[1] * 0x100_0000 + d[2] * 0x10_0000 + d[3] * 0x1_0000
      + d[4] * 0x1000 + d[5] * 0x100 + d[6] * 0x10 + d[7]
  {
    hide Number, Place;
    Places();
    assert d[0..] == d;
    NumberFrom(d, 0);
    NumberFrom(d, 1);
    NumberFrom(d, 2);
    NumberFrom(d, 3);
    FourDigitNumber(d[4..]);
  }

  // ----- the escapes

  /** A backslash and u or U, within a literal: the digits that follow are read, and the bytes of the code point are
      put before the rest of the literal. */
  lemma {:induction false} CodeInBody(c: char, tail: string)
    requires c == 'u' || c == 'U'
    ensures ParseBody(['\\', c] + tail, '\"') ==
      var number := ParseHex(tail, if c == 'u' then 0x1000 else 0x1000_0000);
      if number.Fail? || 0xd800 <= number.value <= 0xdfff || 0x10ffff < number.value then Fail
      else Prepend(Utf8(number.value), ParseBody(number.rest, '\"'))
  {
    hide ParseHex, Utf8, Prepend;
    var s := ['\\', c] + tail;
    BodyAt(s, 0, '\"');
    assert s[0..] == s && s[1..] == [c] + tail && s[1..][1..] == tail;
  }

  lemma {:induction false} DigitsBelow(h: string, d: seq<nat>)
    requires ShowsAll(h, d)
    ensures forall i :: 0 <= i < |d| ==> d[i] < 16
  {
    forall i | 0 <= i < |d| ensures d[i] < 16 {
      assert Shows(h[i], d[i]);
    }
  }

  /** A backslash, u and four hexadecimal digits stand, within a literal, for the bytes of the number the digits
      denote, unless that is a surrogate: then the literal is refused. */
  lemma {:induction false} ShortCodeRead(h: string, d: seq<nat>, rest: string)
    requires |d| == 4 && ShowsAll(h, d)
    ensures var code := d[0] * 0x1000 + d[1] * 0x100 + d[2] * 0x10 + d[3];
      ParseBody("\\u" + h + rest, '\"') ==
        if 0xd800 <= code <= 0xdfff then Fail else Prepend(Utf8(code), ParseBody(rest, '\"'))
  {
    hide *;
    NumberRead(h, d, rest);
    Places();
    FourDigitNumber(d);
    DigitsBelow(h, d);
    CodeInBody('u', h + rest);
    assert "\\u" + h + rest == ['\\', 'u'] + (h + rest);
  }

  /** The same for a backslash, U and eight digits; a number beyond the last code point is refused as well. */
  lemma {:induction false} LongCodeRead(h: string, d: seq<nat>, rest: string)
    requires |d| == 8 && ShowsAll(h, d)
    ensures var code := d[0] * 0x1000_0000 + d[1] * 0x100_0000 + d[2] * 0x10_0000 + d[3] * 0x1_0000
                        + d[4] * 0x1000 + d[5] * 0x100 + d[6] * 0x10 + d[7];
      ParseBody("\\U" + h + rest, '\"') ==
        if 0xd800 <= code <= 0xdfff || 0x10ffff < code then Fail else Prepend(Utf8(code), ParseBody(rest, '\"'))
  {
    hide *;
    NumberRead(h, d, rest);
    Places();
    EightDigitNumber(d);
    CodeInBody('U', h + rest);
    assert "\\U" + h + rest == ['\\', 'U'] + (h + rest);
  }

  /** An escape is refused when the line ends, or another character comes, before its last digit. */
  lemma {:induction false} CodeRefused(c: char, k: nat, tail: string)
    requires (c == 'u' && k == 4) || (c == 'U' && k == 8)
    requires |tail| < k || exists i :: 0 <= i < k && tail[i] !in "0123456789abcdefABCDEF"
    ensures ParseBody(['\\', c] + tail, '\"') == Fail
  {
    hide *;
    if |tail| >= k {
      var i :| 0 <= i < k && tail[i] !in "0123456789abcdefABCDEF";
      HexShown(tail[i]);
    }
    NumberRefused(tail, k);
    CodeInBody(c, tail);
    Places();
  }

  /** The other escapes: one letter for one character, and nothing else. */
  lemma {:induction false} NamedRead(c: char, tail: string)
    requires c != 'u' && c != 'U'
    ensures forall i :: 0 <= i < 7 && c == "btnfr\"\\"[i] ==>
      ParseBody(['\\', c] + tail, '\"') == Prepend(["\U{0008}\t\n\U{000C}\r\"\\"[i]], ParseBody(tail, '\"'))
    ensures c !in "btnfr\"\\" ==> ParseBody(['\\', c] + tail, '\"') == Fail
  {
    var s := ['\\', c] + tail;
    hide Prepend;
    BodyAt(s, 0, '\"');
    assert s[0..] == s && s[1..] == [c] + tail && s[1..][1..] == tail;
  }

  /** What the writer prints for a character: a letter of its own after a backslash, an unpadded code, or itself. */
  lemma {:induction false} EscapesPrinted(c: char)
    ensures forall i :: 0 <= i < 7 && c == "\U{0008}\t\n\U{000C}\r\"\\"[i] ==> EscapeChar(c) == ['\\', "btnfr\"\\"[i]]
    ensures c !in "\U{0008}\t\n\U{000C}\r\"\\" ==>
      EscapeChar(c) == (if c as int < 0x10 then ['\\', 'u', "0123456789abcdef"[c as int]]
                        else if c as int < 0x20 then ['\\', 'u', '1', "0123456789abcdef"[c as int - 0x10]]
                        else [c])
  {
    assert '\\' as int > 0x1f && '\"' as int > 0x1f;
  }

  // ----- literals without escapes

  /** Up to its closing delimiter a literal without escapes is what it shows.  Between single quotes
      a backslash is a character like any other. */
  lemma {:induction false} LiteralRead(w: string, delim: char, rest: string)
    requires delim !in w && (delim == '\"' ==> '\\' !in w)
    ensures ParseBody(w + [delim] + rest, delim) == Done(w, rest)
    ensures ParseBody(w, delim) == Fail
  {
    if w == [] {
      assert w + [delim] + rest == [delim] + rest && ([delim] + rest)[1..] == rest;
    } else {
      var s := w + [delim] + rest;
      assert s[1..] == w[1..] + [delim] + rest && s[..1] == w[..1] && s[0] == w[0];
      LiteralRead(w[1..], delim, rest);
      assert w == w[..1] + w[1..];
    }
  }

  // ----- arrays

  /** An array of strings ends at any character that comes in the place of a comma, a blank or a comment. */
  lemma {:induction false} MissingComma(w: string, c: char, rest: string)
    requires w != [] && Plain(w) && c !in " \t,#"
    ensures ParseArray("[" + Printed(Str(w)) + [c] + rest) == Done(Arr([Str(w)]), rest)
  {
    hide Plain, ParseBody, Escaped, ParseStrings;
    var after := [c] + rest;
    var b := "\"" + Text(w, after);
    var s := "[" + Printed(Str(w)) + [c] + rest;
    assert s[1..] == b && SkipBlanks(b) == b;
    StringRoundTrip(w, after);
    assert b[1..] == Text(w, after) && b[1] != '\"' by { TextNext(w, after); }
    assert ParseString(b) == Done(Str(w), after);
    EndOfStrings(b, Str(w), c, rest);
  }

  lemma {:induction false} EndOfStrings(b: string, v: Value, c: char, rest: string)
    requires b != [] && b[0] == '\"' && v.Str? && ParseString(b) == Done(v, [c] + rest) && c !in " \t,#"
    ensures ParseStrings(b) == Done([v], rest)
  {
    hide ParseString, ParseArray;
    var after := [c] + rest;
    assert SkipBlanks(after) == after && after[1..] == rest;
    assert ParseValue(b) == ParseString(b);
  }

  /** The layout of printed arrays. */
  lemma {:induction false} ArrayPrinted()
    ensures Printed(Arr([Arr([Str("a"), Str("b")]), Arr([])])) == "[[\"a\", \"b\"], []]"
  {
    var a, b, e := Str("a"), Str("b"), Arr([]);
    assert Printed(a) == "\"a\"" && Printed(b) == "\"b\"" by {
      assert Escaped("a") == "a" && Escaped("b") == "b";
    }
    assert PrintedItems([]) == "" && Printed(e) == "[]";
    ItemsSplit([a, b]);
    ItemsSplit([b]);
    assert [a, b][1..] == [b];
    PrintedArray([a, b]);
    var inner := Arr([a, b]);
    ItemsSplit([inner, e]);
    ItemsSplit([e]);
    assert [inner, e][1..] == [e];
    PrintedArray([inner, e]);
    hide Printed, PrintedItems;
  }
}
