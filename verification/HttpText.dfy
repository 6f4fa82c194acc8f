/** The text operations the HTTP adapter uses from the standard library, and the
    header lines they are applied to. */
module HttpText {
  import opened Base

  /** A line without the CR of a CRLF. */
  function StripCr(line: string): string
  {
    if line != "" && line[|line| - 1] == '\r' then line[..|line| - 1] else line
  }

  /** The lines of a text: LF or CRLF ends one, a last line may lack its ending,
      and a CR alone is part of its line. */
  function TextLines(s: string): seq<string>
  {
    if s == "" then []
    else
      var i := IndexOf(s, '\n');
      if i == |s| then [s] else [StripCr(s[..i])] + TextLines(s[i + 1..])
  }

  /** The Unicode white space characters. */
  predicate IsWhite(c: char)
  {
    var n := c as int;
    9 <= n <= 13 || n == 32 || n == 0x85 || n == 0xA0 || n == 0x1680 || 0x2000 <= n <= 0x200A
    || n == 0x2028 || n == 0x2029 || n == 0x202F || n == 0x205F || n == 0x3000
  }

  function TrimStart(s: string): string
  {
    if s != "" && IsWhite(s[0]) then TrimStart(s[1..]) else s
  }

  function TrimEnd(s: string): string
  {
    if s != "" && IsWhite(s[|s| - 1]) then TrimEnd(s[..|s| - 1]) else s
  }

  function Trim(s: string): string
  {
    TrimEnd(TrimStart(s))
  }

  function Lower(c: char): char
  {
    if 'A' <= c <= 'Z' then (c as int + 32) as char else c
  }

  predicate SameIgnoringCase(a: string, b: string)
  {
    |a| == |b| && forall i :: 0 <= i < |a| ==> Lower(a[i]) == Lower(b[i])
  }

  function DigitValue(c: char): (n: nat)
  {
    if '0' <= c <= '9' then c as int - '0' as int
    else if 'a' <= c <= 'z' then c as int - 'a' as int + 10
    else if 'A' <= c <= 'Z' then c as int - 'A' as int + 10
    else 36
  }

  /** The number a string of digits spells, or `None` for a character that is no
      digit of the radix. */
  function Digits(s: string, radix: nat): Option<nat>
  {
    if s == "" then Some(0)
    else
      match Digits(s[..|s| - 1], radix)
      case None => None
      case Some(n) =>
        var d := DigitValue(s[|s| - 1]);
        if d < radix then Some(n * radix + d) else None
  }

  /** A machine-word number: at least one digit, one leading `+` allowed, and no
      more than the word holds. */
  function ParseUsize(s: string, radix: nat): Option<nat>
  {
    var digits := if |s| > 1 && s[0] == '+' then s[1..] else s;
    if digits == "" then None
    else
      match Digits(digits, radix)
      case None => None
      case Some(n) => if n <= USIZE_MAX then Some(n) else None
  }

  // ---- White space ----

  /** The characters with the Unicode property White_Space. */
  const WHITE: string := "\t\n\U{0B}\U{0C}\r \U{85}\U{A0}\U{1680}\U{2000}\U{2001}\U{2002}\U{2003}\U{2004}\U{2005}"
                         + "\U{2006}\U{2007}\U{2008}\U{2009}\U{200A}\U{2028}\U{2029}\U{202F}\U{205F}\U{3000}"

  lemma WhiteIsListed(c: char)
    ensures IsWhite(c) <==> c in WHITE
  {
  }

  predicate AllWhite(s: string)
  {
    forall i :: 0 <= i < |s| ==> IsWhite(s[i])
  }

  predicate IsTrimmed(s: string)
  {
    s == "" || (!IsWhite(s[0]) && !IsWhite(s[|s| - 1]))
  }

  lemma {:induction false} StartIsTrimmed(s: string) returns (a: string)
    ensures s == a + TrimStart(s) && AllWhite(a)
    ensures TrimStart(s) != "" ==> !IsWhite(TrimStart(s)[0])
  {
    a := "";
    if s != "" {
      if IsWhite(s[0]) {
        var more := StartIsTrimmed(s[1..]);
        a := [s[0]] + more;
        assert s == [s[0]] + s[1..];
      }
    }
  }

  lemma {:induction false} EndIsTrimmed(s: string) returns (b: string)
    ensures s == TrimEnd(s) + b && AllWhite(b)
    ensures TrimEnd(s) != "" ==> !IsWhite(TrimEnd(s)[|TrimEnd(s)| - 1])
    decreases |s|
  {
    b := "";
    if s != "" {
      var n := |s| - 1;
      if IsWhite(s[n]) {
        var more := EndIsTrimmed(s[..n]);
        b := more + [s[n]];
        assert s == s[..n] + [s[n]];
      }
    }
  }

  lemma {:induction false} StartGoes(a: string, s: string)
    requires AllWhite(a) && (s != "" ==> !IsWhite(s[0]))
    ensures TrimStart(a + s) == s
    decreases |a|
  {
    if a == "" {
      assert a + s == s;
    } else {
      assert (a + s)[1..] == a[1..] + s;
      StartGoes(a[1..], s);
    }
  }

  lemma {:induction false} EndGoes(s: string, b: string)
    requires AllWhite(b) && (s != "" ==> !IsWhite(s[|s| - 1]))
    ensures TrimEnd(s + b) == s
    decreases |b|
  {
    if b == "" {
      assert s + b == s;
    } else {
      var n := |b| - 1;
      assert (s + b)[..|s + b| - 1] == s + b[..n] && (s + b)[|s + b| - 1] == b[n];
      EndGoes(s, b[..n]);
    }
  }

  /** `s` is `v` in the middle of white space. */
  ghost predicate IsPadded(s: string, v: string)
  {
    exists a, b :: AllWhite(a) && AllWhite(b) && s == a + v + b
  }

  lemma TrimmedIsPadded(s: string)
    ensures IsTrimmed(Trim(s)) && IsPadded(s, Trim(s))
  {
    var a := StartIsTrimmed(s);
    var t := TrimStart(s);
    var b := EndIsTrimmed(t);
    assert s == a + Trim(s) + b;
    if Trim(s) != "" {
      assert t[0] == Trim(s)[0];
    }
  }

  lemma PaddingGoes(a: string, v: string, b: string)
    requires AllWhite(a) && AllWhite(b) && IsTrimmed(v)
    ensures Trim(a + v + b) == v
  {
    if v == "" {
      assert AllWhite(a + b);
      StartGoes(a + b, "");
      assert a + v + b == a + b + "";
    } else {
      StartGoes(a, v + b);
      assert a + v + b == a + (v + b);
      EndGoes(v, b);
    }
  }

  /** Trimming takes off exactly the white space around. */
  lemma TrimIsExact(s: string, v: string)
    ensures Trim(s) == v <==> IsTrimmed(v) && IsPadded(s, v)
  {
    TrimmedIsPadded(s);
    if IsTrimmed(v) && IsPadded(s, v) {
      var a, b :| AllWhite(a) && AllWhite(b) && s == a + v + b;
      PaddingGoes(a, v, b);
    }
  }

  /** Only white space trims to nothing. */
  lemma BlankExactlyWhen(s: string)
    ensures Trim(s) == "" <==> AllWhite(s)
  {
    TrimIsExact(s, "");
    if AllWhite(s) {
      assert AllWhite("") && s == s + "" + "";
    }
    if IsPadded(s, "") {
      var a, b :| AllWhite(a) && AllWhite(b) && s == a + "" + b;
    }
  }
}
