/** UTF-8 as the source's standard library checks and reads it (RFC 3629). */
module Utf8 {
  import opened Base

  predicate Continuation(b: byte)
  {
    0x80 <= b < 0xC0
  }

  /** How many bytes the well-formed character at the head of `s` takes, or 0
      when `s` does not start with one. */
  function Width(s: seq<byte>): (n: nat)
    requires s != []
    ensures n <= |s|
  {
    var b := s[0];
    if b < 0x80 then 1
    else if 0xC2 <= b < 0xE0 then
      if |s| >= 2 && Continuation(s[1]) then 2 else 0
    else if 0xE0 <= b < 0xF0 then
      if |s| >= 3 && Continuation(s[1]) && Continuation(s[2])
         && (b == 0xE0 ==> s[1] >= 0xA0) && (b == 0xED ==> s[1] < 0xA0)
      then 3 else 0
    else if 0xF0 <= b < 0xF5 then
      if |s| >= 4 && Continuation(s[1]) && Continuation(s[2]) && Continuation(s[3])
         && (b == 0xF0 ==> s[1] >= 0x90) && (b == 0xF4 ==> s[1] < 0x90)
      then 4 else 0
    else 0
  }

  function Low(b: byte): (n: nat)
    requires Continuation(b)
    ensures n < 64
  {
    b as int - 0x80
  }

  /** The character at the head of `s`. */
  function Scalar(s: seq<byte>): char
    requires s != [] && Width(s) != 0
  {
    var b := s[0] as int;
    match Width(s)
    case 1 => b as char
    case 2 => ((b - 0xC0) * 64 + Low(s[1])) as char
    case 3 => ((b - 0xE0) * 4096 + Low(s[1]) * 64 + Low(s[2])) as char
    case _ => ((b - 0xF0) * 262144 + Low(s[1]) * 4096 + Low(s[2]) * 64 + Low(s[3])) as char
  }

  predicate IsText(s: seq<byte>)
  {
    s == [] || (Width(s) != 0 && IsText(s[Width(s)..]))
  }

  /** The text `s` spells. */
  function Decode(s: seq<byte>): string
    requires IsText(s)
  {
    if s == [] then "" else [Scalar(s)] + Decode(s[Width(s)..])
  }

  /** ASCII in front changes nothing about what follows. */
  lemma {:induction false} AsciiPrefix(a: seq<byte>, s: seq<byte>)
    requires forall i :: 0 <= i < |a| ==> a[i] < 0x80
    ensures IsText(a + s) == IsText(s)
  {
    if a == [] {
      assert a + s == s;
    } else {
      AsciiPrefix(a[1..], s);
      assert (a + s)[1..] == a[1..] + s;
    }
  }

  // ---- The checks are exact ----

  /** The last six bits, as a continuation byte. */
  function Tail(n: nat): (b: byte)
    ensures Continuation(b) && Low(b) == n % 64
  {
    (0x80 + n % 64) as byte
  }

  /** A character as UTF-8 spells it: the table of section 3 of RFC 3629. */
  function EncodeChar(c: char): seq<byte>
  {
    var n := c as int;
    if n < 0x80 then [n as byte]
    else if n < 0x800 then [(0xC0 + n / 64) as byte, Tail(n)]
    else if n < 0x1_0000 then [(0xE0 + n / 64 / 64) as byte, Tail(n / 64), Tail(n)]
    else [(0xF0 + n / 64 / 64 / 64) as byte, Tail(n / 64 / 64), Tail(n / 64), Tail(n)]
  }

  function Encode(text: string): seq<byte>
  {
    if text == "" then [] else EncodeChar(text[0]) + Encode(text[1..])
  }

  lemma Digits(n: nat)
    ensures n == n / 64 * 64 + n % 64
  {
  }

  lemma DigitsOf(high: nat, low: nat)
    requires low < 64
    ensures (high * 64 + low) / 64 == high && (high * 64 + low) % 64 == low
  {
  }

  lemma ShortCharIsRead(c: char, rest: seq<byte>)
    requires c as int < 0x800
    ensures var s := EncodeChar(c) + rest;
            Width(s) == |EncodeChar(c)| != 0 && Scalar(s) == c
  {
    Digits(c as int);
  }

  lemma MiddleCharIsRead(c: char, rest: seq<byte>)
    requires 0x800 <= c as int < 0x1_0000
    ensures var s := EncodeChar(c) + rest;
            Width(s) == |EncodeChar(c)| != 0 && Scalar(s) == c
  {
    var n := c as int;
    var s := EncodeChar(c) + rest;
    Digits(n);
    Digits(n / 64);
    assert s[0] as int == 0xE0 + n / 64 / 64 && s[1] == Tail(n / 64) && s[2] == Tail(n);
    assert Width(s) == 3;
  }

  lemma LongCharIsRead(c: char, rest: seq<byte>)
    requires 0x1_0000 <= c as int
    ensures var s := EncodeChar(c) + rest;
            Width(s) == |EncodeChar(c)| != 0 && Scalar(s) == c
  {
    var n := c as int;
    var s := EncodeChar(c) + rest;
    Digits(n);
    Digits(n / 64);
    Digits(n / 64 / 64);
    assert s[0] as int == 0xF0 + n / 64 / 64 / 64 && s[1] == Tail(n / 64 / 64) && s[2] == Tail(n / 64) && s[3] == Tail(n);
    assert Width(s) == 4;
  }

  lemma CharIsRead(c: char, rest: seq<byte>)
    ensures var s := EncodeChar(c) + rest;
            Width(s) == |EncodeChar(c)| != 0 && Scalar(s) == c && s[Width(s)..] == rest
  {
    if c as int < 0x800 {
      ShortCharIsRead(c, rest);
    } else if c as int < 0x1_0000 {
      MiddleCharIsRead(c, rest);
    } else {
      LongCharIsRead(c, rest);
    }
  }

  lemma ShortCharIsSpelled(s: seq<byte>)
    requires s != [] && (Width(s) == 1 || Width(s) == 2)
    ensures EncodeChar(Scalar(s)) == s[..Width(s)]
  {
    if Width(s) == 2 {
      DigitsOf(s[0] as int - 0xC0, Low(s[1]));
    }
  }

  lemma MiddleCharIsSpelled(s: seq<byte>)
    requires s != [] && Width(s) == 3
    ensures EncodeChar(Scalar(s)) == s[..Width(s)]
  {
    var a, b, c := s[0] as int - 0xE0, Low(s[1]), Low(s[2]);
    assert Scalar(s) as int == (a * 64 + b) * 64 + c;
    DigitsOf(a * 64 + b, c);
    DigitsOf(a, b);
  }

  lemma LongCharIsSpelled(s: seq<byte>)
    requires s != [] && Width(s) == 4
    ensures EncodeChar(Scalar(s)) == s[..Width(s)]
  {
    var a, b, c, d := s[0] as int - 0xF0, Low(s[1]), Low(s[2]), Low(s[3]);
    assert Scalar(s) as int == ((a * 64 + b) * 64 + c) * 64 + d;
    DigitsOf((a * 64 + b) * 64 + c, d);
    DigitsOf(a * 64 + b, c);
    DigitsOf(a, b);
  }

  lemma CharIsSpelled(s: seq<byte>)
    requires s != [] && Width(s) != 0
    ensures EncodeChar(Scalar(s)) == s[..Width(s)]
  {
    match Width(s) {
      case 1 => ShortCharIsSpelled(s);
      case 2 => ShortCharIsSpelled(s);
      case 3 => MiddleCharIsSpelled(s);
      case _ => LongCharIsSpelled(s);
    }
  }

  lemma {:induction false} TextIsRead(text: string)
    ensures IsText(Encode(text)) && Decode(Encode(text)) == text
  {
    if text != "" {
      TextIsRead(text[1..]);
      CharIsRead(text[0], Encode(text[1..]));
    }
  }

  lemma FirstIsSpelled(c: char, text: string, s: seq<byte>, w: nat)
    requires w <= |s| && EncodeChar(c) == s[..w] && Encode(text) == s[w..]
    ensures Encode([c] + text) == s
  {
    assert ([c] + text)[1..] == text;
    assert s == s[..w] + s[w..];
  }

  lemma {:induction false} TextIsSpelled(s: seq<byte>)
    requires IsText(s)
    ensures Encode(Decode(s)) == s
  {
    if s != [] {
      var w := Width(s);
      CharIsSpelled(s);
      TextIsSpelled(s[w..]);
      FirstIsSpelled(Scalar(s), Decode(s[w..]), s, w);
    }
  }

  /** Bytes are text exactly when they spell some characters, and are read as those. */
  lemma BytesAreTextExactlyWhen(s: seq<byte>, text: string)
    ensures IsText(s) && Decode(s) == text <==> s == Encode(text)
  {
    TextIsRead(text);
    if IsText(s) {
      TextIsSpelled(s);
    }
  }

  lemma {:induction false} EncodeJoins(a: string, b: string)
    ensures Encode(a + b) == Encode(a) + Encode(b)
  {
    if a == "" {
      assert a + b == b;
    } else {
      assert (a + b)[1..] == a[1..] + b;
      EncodeJoins(a[1..], b);
    }
  }

  lemma TextsJoin(a: seq<byte>, b: seq<byte>)
    requires IsText(a) && IsText(b)
    ensures IsText(a + b) && Decode(a + b) == Decode(a) + Decode(b)
  {
    TextIsSpelled(a);
    TextIsSpelled(b);
    EncodeJoins(Decode(a), Decode(b));
    TextIsRead(Decode(a) + Decode(b));
  }

  /** A text cut before an ASCII byte is two texts. */
  lemma {:induction false} TextSplits(a: seq<byte>, b: seq<byte>)
    requires b != [] && b[0] < 0x80 && IsText(a + b)
    ensures IsText(a) && IsText(b)
    decreases |a|
  {
    if a == [] {
      assert a + b == b;
    } else {
      var w := Width(a + b);
      FirstStaysInside(a, b);
      assert (a + b)[w..] == a[w..] + b;
      TextSplits(a[w..], b);
    }
  }

  lemma FirstStaysInside(a: seq<byte>, b: seq<byte>)
    requires a != [] && b != [] && b[0] < 0x80 && Width(a + b) != 0
    ensures Width(a + b) == Width(a)
  {
    assert (a + b)[|a|] == b[0];
    assert forall i :: 0 <= i < |a| ==> (a + b)[i] == a[i];
  }
}
