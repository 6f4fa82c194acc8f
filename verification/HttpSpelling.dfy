/** What a response's text may look like: letters of either case, white space, numerals,
    header lines and size lines, each spelled out, and how the adapter reads them. */
module HttpSpelling {
  import opened Base
  import Utf8
  import opened HttpText
  import opened HttpFraming
  import opened HttpRead
  import opened HttpRoundTrip

  // ---- Letters ----

  function Upper(c: char): char
  {
    if 'a' <= c <= 'z' then (c as int - 32) as char else c
  }

  /** `word` is `name` with any of its letters capital. */
  predicate SpelledAs(word: string, name: string)
  {
    |word| == |name| && forall i :: 0 <= i < |name| ==> word[i] == name[i] || word[i] == Upper(name[i])
  }

  /** A name in small letters. */
  predicate IsSmall(name: string)
  {
    forall i :: 0 <= i < |name| ==> !('A' <= name[i] <= 'Z')
  }

  lemma CaseDoesNotMatter(word: string, name: string)
    requires IsSmall(name)
    ensures SameIgnoringCase(word, name) <==> SpelledAs(word, name)
  {
  }

  // ---- Numerals ----

  function DigitChar(n: nat): char
    requires n < 16
  {
    if n < 10 then (n + '0' as int) as char else (n - 10 + 'a' as int) as char
  }

  /** Decimal, or hexadecimal. */
  predicate IsRadix(radix: nat)
  {
    radix == 10 || radix == 16
  }

  /** The digits of a number, without leading zeros. */
  function Numeral(n: nat, radix: nat): (text: string)
    requires IsRadix(radix)
    ensures text != ""
  {
    if n < radix then [DigitChar(n)] else Numeral(n / radix, radix) + [DigitChar(n % radix)]
  }

  predicate AllZeros(s: string)
  {
    forall i :: 0 <= i < |s| ==> s[i] == '0'
  }

  /** Any zeros, and then the number's digits, letters among them of either case. */
  ghost predicate IsNumeral(s: string, radix: nat, n: nat)
    requires IsRadix(radix)
  {
    exists k :: 0 <= k < |s| && AllZeros(s[..k]) && SpelledAs(s[k..], Numeral(n, radix))
  }

  lemma DigitIsRead(c: char, d: nat)
    requires d < 16
    ensures DigitValue(c) == d <==> c == DigitChar(d) || c == Upper(DigitChar(d))
  {
  }

  lemma {:induction false} ZerosAreRead(s: string, radix: nat)
    requires AllZeros(s) && radix > 0
    ensures Digits(s, radix) == Some(0)
  {
    if s != "" {
      ZerosAreRead(s[..|s| - 1], radix);
    }
  }

  lemma Divides(q: nat, r: nat, radix: nat)
    requires IsRadix(radix) && r < radix
    ensures (q * radix + r) / radix == q && (q * radix + r) % radix == r
    ensures q > 0 ==> q * radix + r >= radix
  {
    if radix == 10 {
      assert q * radix == q * 10;
    } else {
      assert q * radix == q * 16;
    }
  }

  lemma LastDigit(n: nat, radix: nat)
    requires IsRadix(radix) && radix <= n
    ensures var text := Numeral(n, radix);
            text[..|text| - 1] == Numeral(n / radix, radix) && text[|text| - 1] == DigitChar(n % radix)
  {
  }

  lemma LastIsRead(s: string, radix: nat, m: nat, d: nat)
    requires IsRadix(radix) && s != "" && Digits(s[..|s| - 1], radix) == Some(m) && d < radix
    requires DigitValue(s[|s| - 1]) == d
    ensures Digits(s, radix) == Some(m * radix + d)
  {
  }

  lemma NumeralParts(s: string, k: nat, radix: nat, n: nat)
    requires IsRadix(radix) && k < |s| && SpelledAs(s[k..], Numeral(n, radix)) && n >= radix
    ensures var last := |s| - 1;
            && k < last && s[..last][..k] == s[..k] && SpelledAs(s[..last][k..], Numeral(n / radix, radix))
            && DigitValue(s[last]) == n % radix
  {
    LastDigit(n, radix);
    var last, text := |s| - 1, Numeral(n, radix);
    assert s[k..][|text| - 1] == s[last];
    assert s[..last][k..] == s[k..][..|text| - 1];
    DigitIsRead(s[last], n % radix);
  }

  lemma Recombines(n: nat, radix: nat)
    requires IsRadix(radix)
    ensures n == n / radix * radix + n % radix
  {
  }

  /** Reading a numeral from its last digit. */
  lemma {:induction false} NumeralIsRead(s: string, k: nat, radix: nat, n: nat)
    requires IsRadix(radix) && k < |s| && AllZeros(s[..k]) && SpelledAs(s[k..], Numeral(n, radix))
    ensures Digits(s, radix) == Some(n)
    decreases n
  {
    var last := |s| - 1;
    if n < radix {
      assert s[k..][0] == s[k];
      ZerosAreRead(s[..last], radix);
      DigitIsRead(s[last], n);
      LastIsRead(s, radix, 0, n);
    } else {
      NumeralParts(s, k, radix, n);
      NumeralIsRead(s[..last], k, radix, n / radix);
      LastIsRead(s, radix, n / radix, n % radix);
      Recombines(n, radix);
    }
  }

  lemma NumeralWithDigit(m: nat, d: nat, radix: nat)
    requires IsRadix(radix) && m > 0 && d < radix
    ensures Numeral(m * radix + d, radix) == Numeral(m, radix) + [DigitChar(d)]
  {
    Divides(m, d, radix);
  }

  lemma NumeralGrows(s: string, k: nat, radix: nat, m: nat, c: char, d: nat)
    requires IsRadix(radix) && k < |s| && AllZeros(s[..k]) && SpelledAs(s[k..], Numeral(m, radix))
    requires m > 0 && d < radix && DigitValue(c) == d
    ensures IsNumeral(s + [c], radix, m * radix + d)
  {
    var t := s + [c];
    NumeralWithDigit(m, d, radix);
    DigitIsRead(c, d);
    assert t[..k] == s[..k] && t[k..] == s[k..] + [c];
    SpelledOn(s[k..], Numeral(m, radix), c, DigitChar(d));
    assert SpelledAs(t[k..], Numeral(m * radix + d, radix));
  }

  lemma SpelledOn(word: string, name: string, c: char, d: char)
    requires SpelledAs(word, name) && (c == d || c == Upper(d))
    ensures SpelledAs(word + [c], name + [d])
  {
  }

  /** And what is read is a numeral. */
  lemma {:induction false} ReadIsNumeral(s: string, radix: nat, n: nat)
    requires IsRadix(radix) && s != "" && Digits(s, radix) == Some(n)
    ensures IsNumeral(s, radix, n)
    decreases |s|
  {
    var last := |s| - 1;
    var init, c := s[..last], s[last];
    var m, d := Digits(init, radix).value, DigitValue(c);
    assert s == init + [c];
    if m == 0 {
      OnlyZerosReadAsZero(init, radix);
      DigitIsRead(c, d);
      assert s[..last] == init && s[last..] == [c];
      assert SpelledAs(s[last..], Numeral(n, radix));
    } else {
      ReadIsNumeral(init, radix, m);
      var k :| 0 <= k < |init| && AllZeros(init[..k]) && SpelledAs(init[k..], Numeral(m, radix));
      NumeralGrows(init, k, radix, m, c, d);
    }
  }

  lemma {:induction false} OnlyZerosReadAsZero(s: string, radix: nat)
    requires IsRadix(radix) && Digits(s, radix) == Some(0)
    ensures AllZeros(s)
    decreases |s|
  {
    if s != "" {
      var last := |s| - 1;
      Divides(Digits(s[..last], radix).value, DigitValue(s[last]), radix);
      OnlyZerosReadAsZero(s[..last], radix);
      DigitIsRead(s[last], 0);
      assert s == s[..last] + [s[last]];
    }
  }

  /** A machine word is spelled by a numeral, with or without a plus sign. */
  ghost predicate SpellsWord(s: string, radix: nat, n: nat)
    requires IsRadix(radix)
  {
    n <= USIZE_MAX && (IsNumeral(s, radix, n) || (s != "" && s[0] == '+' && IsNumeral(s[1..], radix, n)))
  }

  lemma DigitsAreExact(s: string, radix: nat, n: nat)
    requires IsRadix(radix)
    ensures s != "" && Digits(s, radix) == Some(n) <==> IsNumeral(s, radix, n)
  {
    if s != "" && Digits(s, radix) == Some(n) {
      ReadIsNumeral(s, radix, n);
    }
    if IsNumeral(s, radix, n) {
      var k :| 0 <= k < |s| && AllZeros(s[..k]) && SpelledAs(s[k..], Numeral(n, radix));
      NumeralIsRead(s, k, radix, n);
    }
  }

  /** A number is read from exactly the texts that spell it. */
  lemma NumbersAreReadAsSpelled(s: string, radix: nat, n: nat)
    requires IsRadix(radix)
    ensures ParseUsize(s, radix) == Some(n) <==> SpellsWord(s, radix, n)
  {
    DigitsAreExact(s, radix, n);
    if s != "" {
      DigitsAreExact(s[1..], radix, n);
      if s[0] == '+' {
        SignIsNoDigit(s, radix);
      }
    }
  }

  lemma {:induction false} SignIsNoDigit(s: string, radix: nat)
    requires IsRadix(radix) && s != "" && s[0] == '+'
    ensures Digits(s, radix) == None
    decreases |s|
  {
    if |s| > 1 {
      SignIsNoDigit(s[..|s| - 1], radix);
    } else {
      assert s[..0] == "";
    }
  }

  // ---- Header lines ----

  /** A line that gives the header `name` this value: the name in any case, a colon, and
      the value with any white space around it. */
  ghost predicate Gives(line: string, name: string, value: string)
  {
    exists word, padded :: line == word + ":" + padded && SpelledAs(word, name) && IsPadded(padded, value) && IsTrimmed(value)
  }

  /** A header's name as the adapter knows it. */
  predicate IsHeaderName(name: string)
  {
    IsSmall(name) && ':' !in name
  }

  lemma NoColonInSpelling(word: string, name: string)
    requires SpelledAs(word, name) && ':' !in name
    ensures ':' !in word
  {
    forall i | 0 <= i < |word|
      ensures word[i] != ':'
    {
      assert name[i] in name;
    }
  }

  lemma ColonSplits(word: string, padded: string)
    requires ':' !in word
    ensures HeaderOf(word + ":" + padded) == Some((word, Trim(padded)))
  {
    var line := word + ":" + padded;
    assert line[|word|] == ':' && forall i :: 0 <= i < |word| ==> line[i] == word[i];
    assert IndexOf(line, ':') == |word|;
    assert line[..|word|] == word && line[|word| + 1..] == padded;
  }

  /** Whether a line gives a header, and which value, is read off its text. */
  lemma HeadersAreReadAsSpelled(line: string, name: string, value: string)
    requires IsHeaderName(name)
    ensures Names(line, name) && Written(line) == value <==> Gives(line, name, value)
  {
    if Names(line, name) && Written(line) == value {
      var i := IndexOf(line, ':');
      var word, padded := line[..i], line[i + 1..];
      assert line == word + ":" + padded;
      CaseDoesNotMatter(word, name);
      TrimIsExact(padded, value);
    }
    if Gives(line, name, value) {
      var word, padded :| line == word + ":" + padded && SpelledAs(word, name) && IsPadded(padded, value)
                          && IsTrimmed(value);
      NoColonInSpelling(word, name);
      ColonSplits(word, padded);
      CaseDoesNotMatter(word, name);
      TrimIsExact(padded, value);
    }
  }

  ghost predicate Mentions(line: string, name: string)
  {
    exists value :: Gives(line, name, value)
  }

  lemma MentionsAreNames(line: string, name: string)
    requires IsHeaderName(name)
    ensures Mentions(line, name) <==> Names(line, name)
  {
    HeadersAreReadAsSpelled(line, name, Written(line));
    if Mentions(line, name) {
      var value :| Gives(line, name, value);
      HeadersAreReadAsSpelled(line, name, value);
    }
  }

  ghost predicate NoneMentions(lines: seq<string>, name: string)
  {
    forall i :: 0 <= i < |lines| ==> !Mentions(lines[i], name)
  }

  /** Line `i` gives the header this value, and no other mentions it. */
  ghost predicate GivesAt(lines: seq<string>, name: string, value: string, i: int)
  {
    0 <= i < |lines| && Gives(lines[i], name, value) && forall j :: 0 <= j < |lines| && j != i ==> !Mentions(lines[j], name)
  }

  ghost predicate OneGives(lines: seq<string>, name: string, value: string)
  {
    exists i :: GivesAt(lines, name, value, i)
  }

  lemma {:induction false} NoValues(lines: seq<string>, name: string)
    requires IsHeaderName(name)
    ensures Values(lines, name) == [] <==> NoneMentions(lines, name)
    decreases |lines|
  {
    if lines != [] {
      var n := |lines| - 1;
      NoValues(lines[..n], name);
      ValuesStep(lines, name);
      MentionsAreNames(lines[n], name);
      if NoneMentions(lines[..n], name) && !Mentions(lines[n], name) {
        forall i | 0 <= i < |lines|
          ensures !Mentions(lines[i], name)
        {
          assert i < n ==> lines[..n][i] == lines[i];
        }
      }
      if NoneMentions(lines, name) {
        forall i | 0 <= i < n
          ensures !Mentions(lines[..n][i], name)
        {
          assert lines[..n][i] == lines[i];
        }
      }
    }
  }

  lemma GivesLast(lines: seq<string>, name: string, value: string)
    requires lines != [] && Mentions(lines[|lines| - 1], name)
    ensures OneGives(lines, name, value) <==>
            Gives(lines[|lines| - 1], name, value) && NoneMentions(lines[..|lines| - 1], name)
  {
    var n := |lines| - 1;
    if Gives(lines[n], name, value) && NoneMentions(lines[..n], name) {
      forall j | 0 <= j < n
        ensures !Mentions(lines[j], name)
      {
        assert lines[..n][j] == lines[j];
      }
      assert GivesAt(lines, name, value, n);
    }
    if OneGives(lines, name, value) {
      var i :| GivesAt(lines, name, value, i);
      assert i == n;
    }
  }

  lemma GivesBefore(lines: seq<string>, name: string, value: string)
    requires lines != [] && !Mentions(lines[|lines| - 1], name)
    ensures OneGives(lines, name, value) <==> OneGives(lines[..|lines| - 1], name, value)
  {
    var front := lines[..|lines| - 1];
    if OneGives(lines, name, value) {
      var i :| GivesAt(lines, name, value, i);
      GivesMentions(lines[i], name, value);
      assert GivesAt(front, name, value, i);
    }
    if OneGives(front, name, value) {
      var i :| GivesAt(front, name, value, i);
      assert GivesAt(lines, name, value, i);
    }
  }

  lemma GivesMentions(line: string, name: string, value: string)
    requires Gives(line, name, value)
    ensures Mentions(line, name)
  {
  }

  /** The values read are those the lines give. */
  lemma {:induction false} OneValue(lines: seq<string>, name: string, value: string)
    requires IsHeaderName(name)
    ensures Values(lines, name) == [value] <==> OneGives(lines, name, value)
    decreases |lines|
  {
    if lines != [] {
      var n := |lines| - 1;
      var last := lines[n];
      ValuesStep(lines, name);
      MentionsAreNames(last, name);
      HeadersAreReadAsSpelled(last, name, value);
      if Names(last, name) {
        NoValues(lines[..n], name);
        GivesLast(lines, name, value);
        if Values(lines, name) == [value] {
          assert Values(lines, name)[|Values(lines, name)| - 1] == value;
        }
      } else {
        OneValue(lines[..n], name, value);
        GivesBefore(lines, name, value);
      }
    }
  }

  // ---- A head as text ----

  /** A line of a head: a line feed ends it, and it does not end in a carriage return. */
  predicate IsTextLine(line: string)
  {
    '\n' !in line && (line != "" ==> line[|line| - 1] != '\r')
  }

  /** Lines, each but the last ended by a line feed with or without a carriage return. */
  function WriteText(lines: seq<string>, returns_: seq<bool>): string
    requires lines != [] && |returns_| == |lines| - 1
  {
    if |lines| == 1 then lines[0]
    else lines[0] + (if returns_[0] then "\r\n" else "\n") + WriteText(lines[1..], returns_[1..])
  }

  lemma LineUpTo(held: string, rest: string)
    requires '\n' !in held
    ensures TextLines(held + "\n" + rest) == [StripCr(held)] + TextLines(rest)
  {
    var s := held + "\n" + rest;
    forall i | 0 <= i < |held|
      ensures s[i] != '\n'
    {
      assert held[i] in held;
    }
    assert s[|held|] == '\n' && IndexOf(s, '\n') == |held|;
    assert s[..|held|] == held && s[|held| + 1..] == rest;
  }

  lemma FirstTextLine(line: string, end: string, rest: string)
    requires IsTextLine(line) && (end == "\r\n" || end == "\n")
    ensures TextLines(line + end + rest) == [line] + TextLines(rest)
  {
    if end == "\n" {
      LineUpTo(line, rest);
    } else {
      assert line + end + rest == line + "\r" + "\n" + rest;
      LineUpTo(line + "\r", rest);
      assert StripCr(line + "\r") == line;
    }
  }

  lemma {:induction false} TextIsReadByLines(lines: seq<string>, returns_: seq<bool>)
    requires lines != [] && |returns_| == |lines| - 1
    requires (forall i :: 0 <= i < |lines| ==> IsTextLine(lines[i])) && lines[|lines| - 1] != ""
    ensures TextLines(WriteText(lines, returns_)) == lines
    decreases |lines|
  {
    if |lines| == 1 {
      assert IsTextLine(lines[0]);
      assert IndexOf(lines[0], '\n') == |lines[0]|;
    } else {
      TextIsReadByLines(lines[1..], returns_[1..]);
      FirstTextLine(lines[0], if returns_[0] then "\r\n" else "\n", WriteText(lines[1..], returns_[1..]));
    }
  }

  /** A head: the status line and the header lines, each but the last with its line end. */
  ghost predicate IsHeadOf(text: string, fields: seq<string>)
  {
    exists status, returns_: seq<bool> :: |returns_| == |fields| && IsTextLine(status) && status != ""
      && text == WriteText([status] + fields, returns_)
  }

  predicate AreFields(fields: seq<string>)
  {
    forall i :: 0 <= i < |fields| ==> IsTextLine(fields[i]) && fields[i] != ""
  }

  lemma FieldsAreRead(text: string, fields: seq<string>)
    requires IsHeadOf(text, fields) && AreFields(fields)
    ensures FieldLines(text) == fields
  {
    var status, returns_: seq<bool> :| |returns_| == |fields| && IsTextLine(status) && status != ""
      && text == WriteText([status] + fields, returns_);
    TextIsReadByLines([status] + fields, returns_);
    assert ([status] + fields)[1..] == fields;
  }

  lemma NamesAreHeaderNames()
    ensures IsHeaderName(TRANSFER_ENCODING) && IsHeaderName(CONTENT_LENGTH) && IsSmall("chunked")
  {
  }

  /** What a header gives, once. */
  ghost predicate GivesLength(fields: seq<string>, n: nat)
  {
    exists value :: OneGives(fields, "content-length", value) && SpellsWord(value, 10, n)
  }

  ghost predicate GivesChunked(fields: seq<string>)
  {
    exists value :: OneGives(fields, "transfer-encoding", value) && SpelledAs(value, "chunked")
  }

  lemma OneValueIs(values: seq<string>)
    requires |values| == 1
    ensures values == [values[0]]
  {
  }

  lemma LengthFromText(fields: seq<string>, n: nat)
    ensures var cl := Values(fields, CONTENT_LENGTH);
            (|cl| == 1 && ParseUsize(cl[0], 10) == Some(n)) <==> GivesLength(fields, n)
  {
    var cl := Values(fields, CONTENT_LENGTH);
    NamesAreHeaderNames();
    if |cl| == 1 {
      OneValueIs(cl);
      OneValue(fields, CONTENT_LENGTH, cl[0]);
      NumbersAreReadAsSpelled(cl[0], 10, n);
    }
    if value :| OneGives(fields, CONTENT_LENGTH, value) && SpellsWord(value, 10, n) {
      OneValue(fields, CONTENT_LENGTH, value);
      NumbersAreReadAsSpelled(value, 10, n);
    }
  }

  lemma ChunkedFromText(fields: seq<string>)
    ensures var te := Values(fields, TRANSFER_ENCODING);
            (|te| == 1 && SameIgnoringCase(te[0], "chunked")) <==> GivesChunked(fields)
  {
    var te := Values(fields, TRANSFER_ENCODING);
    NamesAreHeaderNames();
    if |te| == 1 {
      OneValueIs(te);
      OneValue(fields, TRANSFER_ENCODING, te[0]);
      CaseDoesNotMatter(te[0], "chunked");
    }
    if value :| OneGives(fields, TRANSFER_ENCODING, value) && SpelledAs(value, "chunked") {
      OneValue(fields, TRANSFER_ENCODING, value);
      CaseDoesNotMatter(value, "chunked");
    }
  }

  lemma MeasuredFromText(text: string, fields: seq<string>, n: nat)
    requires FieldLines(text) == fields
    ensures BodyFraming(text) == Ok(ContentLength(n)) <==>
            NoneMentions(fields, "transfer-encoding") && GivesLength(fields, n)
  {
    FramingIsDecidedByTheHeaders(text);
    NamesAreHeaderNames();
    NoValues(fields, TRANSFER_ENCODING);
    LengthFromText(fields, n);
  }

  /** The framing is decided by the text of the head alone. It has a length exactly when
      one line gives `content-length`, in any case, a value that spells it, and none
      mentions `transfer-encoding`; it is chunked exactly when one line gives
      `transfer-encoding` the value `chunked`, in any case, and none mentions
      `content-length`; it runs to the end exactly when none mentions either. */
  lemma FramingIsReadFromText(text: string, fields: seq<string>)
    requires IsHeadOf(text, fields) && AreFields(fields)
    ensures forall n: nat :: BodyFraming(text) == Ok(ContentLength(n)) <==>
              NoneMentions(fields, "transfer-encoding") && GivesLength(fields, n)
    ensures BodyFraming(text) == Ok(Chunked) <==> NoneMentions(fields, "content-length") && GivesChunked(fields)
    ensures BodyFraming(text) == Ok(CloseDelimited) <==>
              NoneMentions(fields, "transfer-encoding") && NoneMentions(fields, "content-length")
  {
    FieldsAreRead(text, fields);
    FramingIsDecidedByTheHeaders(text);
    NamesAreHeaderNames();
    NoValues(fields, TRANSFER_ENCODING);
    NoValues(fields, CONTENT_LENGTH);
    ChunkedFromText(fields);
    forall n: nat
      ensures BodyFraming(text) == Ok(ContentLength(n)) <==>
              NoneMentions(fields, "transfer-encoding") && GivesLength(fields, n)
    {
      MeasuredFromText(text, fields, n);
    }
  }

  // ---- Responses from their text ----

  lemma HeadIsText(text: string)
    ensures FramingOf(Utf8.Encode(text)) == BodyFraming(text)
  {
    Utf8.TextIsRead(text);
  }

  /** From the text of the head to the body: a head in which one line gives the length of
      the body and none mentions a transfer encoding, with any bytes after the body and
      in any pieces within the limit. */
  lemma WrittenLengthIsReadBack(text: string, fields: seq<string>, body: seq<byte>, extra: seq<byte>,
                                segments: seq<seq<byte>>)
    requires IsHeadOf(text, fields) && AreFields(fields) && IsHead(Utf8.Encode(text))
    requires NoneMentions(fields, "transfer-encoding") && GivesLength(fields, |body|)
    requires Concat(segments) == Response(Utf8.Encode(text), body + extra)
    requires |Concat(segments)| <= MAX_RESPONSE_BYTES
    requires forall i :: 0 <= i < |segments| ==> segments[i] != []
    ensures ReadOn(HTTP, [], segments) == Ok(Response(Utf8.Encode(text), body))
    ensures BodyOf(HTTP, Response(Utf8.Encode(text), body)) == Ok(body)
  {
    HeadIsText(text);
    FramingIsReadFromText(text, fields);
    assert BodyFraming(text) == Ok(ContentLength(|body|));
    MeasuredResponseIsReadBack(HTTP, Utf8.Encode(text), body, extra, segments);
  }

  /** The same of a head in which one line says `chunked` and none mentions a length. */
  lemma WrittenChunksAreReadBack(text: string, fields: seq<string>, chunks: seq<Chunk>, line: seq<byte>,
                                 ending: seq<byte>, extra: seq<byte>, segments: seq<seq<byte>>)
    requires IsHeadOf(text, fields) && AreFields(fields) && IsHead(Utf8.Encode(text))
    requires NoneMentions(fields, "content-length") && GivesChunked(fields)
    requires Sendable(ChunkSize, chunks) && Spells(ChunkSize, line, 0) && IsEnding(ending)
    requires Concat(segments) == Response(Utf8.Encode(text), Encoded(chunks, line, ending) + extra)
    requires |Concat(segments)| <= MAX_RESPONSE_BYTES
    requires forall i :: 0 <= i < |segments| ==> segments[i] != []
    ensures var r := Response(Utf8.Encode(text), Encoded(chunks, line, ending));
            ReadOn(HTTP, [], segments) == Ok(r) && BodyOf(HTTP, r) == Ok(Payload(chunks))
  {
    HeadIsText(text);
    FramingIsReadFromText(text, fields);
    ChunkedResponseIsReadBack(HTTP, Utf8.Encode(text), chunks, line, ending, extra, segments);
  }

  /** And of one that mentions neither: the body is all that follows. */
  lemma WrittenToTheEndIsReadBack(text: string, fields: seq<string>, body: seq<byte>, segments: seq<seq<byte>>)
    requires IsHeadOf(text, fields) && AreFields(fields) && IsHead(Utf8.Encode(text))
    requires NoneMentions(fields, "content-length") && NoneMentions(fields, "transfer-encoding")
    requires Concat(segments) == Response(Utf8.Encode(text), body) && |Concat(segments)| <= MAX_RESPONSE_BYTES
    requires forall i :: 0 <= i < |segments| ==> segments[i] != []
    ensures var r := Response(Utf8.Encode(text), body);
            ReadOn(HTTP, [], segments) == Ok(r) && BodyOf(HTTP, r) == Ok(body)
  {
    HeadIsText(text);
    FramingIsReadFromText(text, fields);
    ClosedResponseIsReadBack(HTTP, Utf8.Encode(text), body, segments);
  }

  // ---- Size lines ----

  /** A size line: the number in hexadecimal with any white space around it, and after it
      nothing, or a semicolon and anything. */
  ghost predicate IsSizeLine(text: string, n: nat)
  {
    exists padded, value, more :: HasParts(text, padded, value, more, n)
  }

  ghost predicate HasParts(text: string, padded: string, value: string, more: string, n: nat)
  {
    && text == padded + more && (more == "" || more[0] == ';') && ';' !in padded
    && IsPadded(padded, value) && IsTrimmed(value) && SpellsWord(value, 16, n)
  }

  lemma CutAtSemicolon(padded: string, more: string)
    requires (more == "" || more[0] == ';') && ';' !in padded
    ensures (padded + more)[..IndexOf(padded + more, ';')] == padded
  {
    var text := padded + more;
    forall i | 0 <= i < |padded|
      ensures text[i] != ';'
    {
      assert padded[i] in padded;
    }
    assert more != "" ==> text[|padded|] == ';';
    assert IndexOf(text, ';') == |padded|;
  }

  lemma UpToSemicolon(text: string)
    ensures var i := IndexOf(text, ';');
            && text == text[..i] + text[i..] && (text[i..] == "" || text[i..][0] == ';') && ';' !in text[..i]
  {
  }

  lemma SizeOfText(text: string)
    ensures ChunkSize(Utf8.Encode(text)) ==
            match ParseUsize(Trim(text[..IndexOf(text, ';')]), 16)
            case None => Err(InvalidChunkSize)
            case Some(n) => Ok(n)
  {
    Utf8.TextIsRead(text);
  }

  lemma ReadIsSizeLine(text: string, n: nat)
    requires ParseUsize(Trim(text[..IndexOf(text, ';')]), 16) == Some(n)
    ensures IsSizeLine(text, n)
  {
    var i := IndexOf(text, ';');
    var value := Trim(text[..i]);
    UpToSemicolon(text);
    TrimIsExact(text[..i], value);
    NumbersAreReadAsSpelled(value, 16, n);
    assert HasParts(text, text[..i], value, text[i..], n);
  }

  lemma SizeLineIsRead(text: string, padded: string, value: string, more: string, n: nat)
    requires HasParts(text, padded, value, more, n)
    ensures ChunkSize(Utf8.Encode(text)) == Ok(n)
  {
    SizeOfText(text);
    CutAtSemicolon(padded, more);
    TrimIsExact(padded, value);
    NumbersAreReadAsSpelled(value, 16, n);
  }

  /** A chunk's size is read from exactly the lines that spell it. */
  lemma SizesAreReadAsSpelled(text: string, n: nat)
    ensures ChunkSize(Utf8.Encode(text)) == Ok(n) <==> IsSizeLine(text, n)
  {
    if ChunkSize(Utf8.Encode(text)) == Ok(n) {
      SizeOfText(text);
      ReadIsSizeLine(text, n);
    }
    if IsSizeLine(text, n) {
      var padded, value, more :| HasParts(text, padded, value, more, n);
      SizeLineIsRead(text, padded, value, more, n);
    }
  }

  lemma {:induction false} NoReturnInBytes(text: string)
    requires '\r' !in text
    ensures CR !in Utf8.Encode(text)
  {
    if text != "" {
      assert text[0] in text && forall c :: c in text[1..] ==> c in text;
      NoReturnInBytes(text[1..]);
      assert CR !in Utf8.EncodeChar(text[0]);
    }
  }

  /** So a sender may write any of them. */
  lemma SizeLinesSpell(text: string, n: nat)
    requires IsSizeLine(text, n) && '\r' !in text
    ensures Spells(ChunkSize, Utf8.Encode(text), n)
  {
    SizesAreReadAsSpelled(text, n);
    NoReturnInBytes(text);
    var line := Utf8.Encode(text);
    forall i | 0 <= i < |line|
      ensures !At(line + CRLF, CrLf, i)
    {
      assert line[i] in line;
    }
  }

  predicate IsHexDigit(c: char)
  {
    '0' <= c <= '9' || 'a' <= c <= 'f'
  }

  lemma {:induction false} NumeralIsPlain(n: nat)
    ensures forall c :: c in Numeral(n, 16) ==> IsHexDigit(c)
  {
    assert forall d: nat :: d < 16 ==> IsHexDigit(DigitChar(d));
    if n >= 16 {
      NumeralIsPlain(n / 16);
    }
  }

  lemma PlainIsPadded(s: string)
    ensures IsPadded(s, s)
  {
    assert AllWhite("") && s == "" + s + "";
  }

  lemma NumeralIsItself(n: nat, radix: nat)
    requires IsRadix(radix)
    ensures IsNumeral(Numeral(n, radix), radix, n)
  {
    var text := Numeral(n, radix);
    assert text[0..] == text && AllZeros(text[..0]);
  }

  lemma HexIsTrimmed(text: string)
    requires text != "" && forall c :: c in text ==> IsHexDigit(c)
    ensures IsTrimmed(text) && ';' !in text && '\r' !in text
  {
    assert text[0] in text && text[|text| - 1] in text;
  }

  lemma NumeralSpells(n: nat)
    requires n <= USIZE_MAX
    ensures IsSizeLine(Numeral(n, 16), n)
  {
    var text := Numeral(n, 16);
    NumeralIsPlain(n);
    NumeralIsItself(n, 16);
    HexIsTrimmed(text);
    PlainIsPadded(text);
    assert text == text + "";
    assert HasParts(text, text, text, "", n);
  }

  /** The plain hexadecimal spelling is one of them, for every size. */
  lemma HexSpells(n: nat)
    requires n <= USIZE_MAX
    ensures Spells(ChunkSize, Utf8.Encode(Numeral(n, 16)), n)
  {
    NumeralSpells(n);
    NumeralIsPlain(n);
    HexIsTrimmed(Numeral(n, 16));
    SizeLinesSpell(Numeral(n, 16), n);
  }
}
