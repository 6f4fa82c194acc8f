/** The adapter's read loop: bytes arrive in pieces, the framing function is asked
    again after each, and the response is cut where it ends. */
module HttpRead {
  import opened Base
  import Utf8
  import opened HttpText
  import opened HttpFraming

  /** How the bytes of the headers give the framing. */
  type HeadRule = seq<byte> -> Result<Framing, Error>

  function FramingOf(head: seq<byte>): Result<Framing, Error>
  {
    if Utf8.IsText(head) then BodyFraming(Utf8.Decode(head)) else Err(HeadersNotText)
  }

  /** The two readings of text that framing rests on. Where a response ends does not
      depend on what they are. */
  datatype Rules = Rules(frame: HeadRule, size: SizeRule)

  const HTTP := Rules(FramingOf, ChunkSize)

  /** How many of the bytes after the headers are body, once they say. */
  function BodyLength(size: SizeRule, framing: Framing, rest: seq<byte>): Result<Option<nat>, Error>
  {
    match framing
    case CloseDelimited => Ok(None)
    case ContentLength(n) => Ok(Some(n))
    case Chunked =>
      match DecodeFrom(size, rest, 0, [])
      case Err(e) => Err(e)
      case Ok(None) => Ok(None)
      case Ok(Some((_, k))) => Ok(Some(k))
  }

  /** The length of the whole response, once the bytes held say what it is. */
  function ExpectedLength(rules: Rules, b: seq<byte>): Result<Option<nat>, Error>
  {
    match Find(b, Blank, 0)
    case None => Ok(None)
    case Some(h) =>
      match rules.frame(b[..h])
      case Err(e) => Err(e)
      case Ok(framing) =>
        match BodyLength(rules.size, framing, b[h + 4..])
        case Err(e) => Err(e)
        case Ok(None) => Ok(None)
        case Ok(Some(n)) => if h + 4 + n <= USIZE_MAX then Ok(Some(h + 4 + n)) else Err(LengthOverflow)
  }

  /** The bytes after the headers as a body, when they are exactly one. */
  function FramedBody(size: SizeRule, framing: Framing, rest: seq<byte>): Result<seq<byte>, Error>
  {
    match framing
    case CloseDelimited => Ok(rest)
    case ContentLength(n) => if |rest| == n then Ok(rest) else Err(LengthMismatch)
    case Chunked =>
      match DecodeFrom(size, rest, 0, [])
      case Err(e) => Err(e)
      case Ok(None) => Err(IncompleteBody)
      case Ok(Some((body, _))) => Ok(body)
  }

  /** The body of a complete response, framed as its headers say. */
  function BodyOf(rules: Rules, b: seq<byte>): Result<seq<byte>, Error>
  {
    match Find(b, Blank, 0)
    case None => Err(NoHeaderEnd)
    case Some(h) =>
      match rules.frame(b[..h])
      case Err(e) => Err(e)
      case Ok(framing) => FramedBody(rules.size, framing, b[h + 4..])
  }

  lemma PrefixDrop(s: seq<byte>, t: seq<byte>, i: nat)
    requires IsPrefix(s, t) && i <= |s|
    ensures IsPrefix(s[i..], t[i..])
  {
    assert t[i..][..|s| - i] == t[..|s|][i..];
  }

  lemma BodyLengthIsStable(size: SizeRule, framing: Framing, s: seq<byte>, t: seq<byte>)
    requires IsPrefix(s, t) && BodyLength(size, framing, s) != Ok(None)
    ensures BodyLength(size, framing, t) == BodyLength(size, framing, s)
  {
    if framing.Chunked? {
      DecodingIsStable(size, s, t, 0, []);
    }
  }

  /** A length, or an error, found on a prefix is found on every longer input. */
  lemma ExpectationIsStable(rules: Rules, s: seq<byte>, t: seq<byte>)
    requires IsPrefix(s, t) && ExpectedLength(rules, s) != Ok(None)
    ensures ExpectedLength(rules, t) == ExpectedLength(rules, s)
  {
    FindInLonger(s, t, Blank, 0);
    var h := Find(s, Blank, 0).value;
    PrefixSlice(s, t, 0, h);
    assert t[..h] == s[..h];
    if rules.frame(s[..h]).Ok? {
      PrefixDrop(s, t, h + 4);
      BodyLengthIsStable(rules.size, rules.frame(s[..h]).value, s[h + 4..], t[h + 4..]);
    }
  }

  lemma CompleteBodyFrames(size: SizeRule, framing: Framing, rest: seq<byte>, n: nat)
    requires BodyLength(size, framing, rest) == Ok(Some(n)) && n <= |rest|
    ensures FramedBody(size, framing, rest[..n]).Ok?
    ensures BodyLength(size, framing, rest[..n]) == Ok(Some(n))
  {
    if framing.Chunked? {
      var (body, k) := DecodeFrom(size, rest, 0, []).value.value;
      DecodingIsExact(size, rest, 0, [], body, k);
    }
  }

  /** Once the response is held whole, its first `n` bytes frame as a body and say
      the same length. */
  lemma CompleteResponseFrames(rules: Rules, b: seq<byte>, n: nat)
    requires ExpectedLength(rules, b) == Ok(Some(n)) && n <= |b|
    ensures BodyOf(rules, b[..n]).Ok?
    ensures ExpectedLength(rules, b[..n]) == Ok(Some(n))
  {
    var h := Find(b, Blank, 0).value;
    CompleteParts(rules, b, h, rules.frame(b[..h]).value, n - h - 4, n);
  }

  lemma CompleteParts(rules: Rules, b: seq<byte>, h: nat, framing: Framing, m: nat, n: nat)
    requires Find(b, Blank, 0) == Some(h) && rules.frame(b[..h]) == Ok(framing)
    requires n == h + 4 + m && n <= |b| && n <= USIZE_MAX && BodyLength(rules.size, framing, b[h + 4..]) == Ok(Some(m))
    ensures BodyOf(rules, b[..n]).Ok? && ExpectedLength(rules, b[..n]) == Ok(Some(n))
  {
    var s := b[..n];
    assert IsPrefix(s, b);
    CompleteBodyFrames(rules.size, framing, b[h + 4..], m);
    FindInShorter(s, b, Blank, 0);
    assert s[..h] == b[..h] && s[h + 4..] == b[h + 4..][..m];
    FramedParts(rules, s, h, framing, b[h + 4..][..m], m, n);
  }

  lemma FramedParts(rules: Rules, s: seq<byte>, h: nat, framing: Framing, rest: seq<byte>, m: nat, n: nat)
    requires Find(s, Blank, 0) == Some(h) && rules.frame(s[..h]) == Ok(framing) && s[h + 4..] == rest
    requires BodyLength(rules.size, framing, rest) == Ok(Some(m)) && n == h + 4 + m && n <= USIZE_MAX
    requires FramedBody(rules.size, framing, rest).Ok?
    ensures BodyOf(rules, s).Ok? && ExpectedLength(rules, s) == Ok(Some(n))
  {
  }

  // ---- The loop ----

  /** The bytes held are not yet a whole response. */
  predicate Undecided(rules: Rules, b: seq<byte>)
  {
    match ExpectedLength(rules, b)
    case Err(_) => false
    case Ok(None) => true
    case Ok(Some(n)) => n <= MAX_RESPONSE_BYTES && |b| < n
  }

  /** What bytes that are all there come to. */
  function Whole(rules: Rules, b: seq<byte>): Result<seq<byte>, Error>
  {
    match ExpectedLength(rules, b)
    case Err(e) => Err(e)
    case Ok(None) => Ok(b)
    case Ok(Some(n)) =>
      if n > MAX_RESPONSE_BYTES then Err(ResponseTooLarge)
      else if |b| >= n then Ok(b[..n]) else Ok(b)
  }

  /** Reading segment after segment on top of `held`, until the response is whole,
      the connection ends, or something is wrong. */
  function ReadOn(rules: Rules, held: seq<byte>, segments: seq<seq<byte>>): Result<seq<byte>, Error>
    decreases |segments|
  {
    if segments == [] || segments[0] == [] then Ok(held)
    else if |held| + |segments[0]| > MAX_RESPONSE_BYTES then Err(ResponseTooLarge)
    else
      var b := held + segments[0];
      if Undecided(rules, b) then ReadOn(rules, b, segments[1..]) else Whole(rules, b)
  }

  method ReadResponse(segments: seq<seq<byte>>) returns (result: Result<seq<byte>, Error>)
    ensures result == ReadOn(HTTP, [], segments)
  {
    var bytes: seq<byte> := [];
    var i := 0;
    assert segments[0..] == segments;
    while i < |segments| && segments[i] != []
      invariant 0 <= i <= |segments|
      invariant ReadOn(HTTP, bytes, segments[i..]) == ReadOn(HTTP, [], segments)
    {
      assert segments[i..][0] == segments[i] && segments[i..][1..] == segments[i + 1..];
      if |bytes| + |segments[i]| > MAX_RESPONSE_BYTES {
        return Err(ResponseTooLarge);
      }
      bytes := bytes + segments[i];
      i := i + 1;
      var expected := ExpectedLength(HTTP, bytes);
      if expected.Err? {
        return Err(expected.error);
      }
      if expected.value.Some? {
        var length := expected.value.value;
        if length > MAX_RESPONSE_BYTES {
          return Err(ResponseTooLarge);
        }
        if |bytes| >= length {
          return Ok(bytes[..length]);
        }
      }
    }
    return Ok(bytes);
  }

  /** A prefix that settles the outcome settles it as the whole does. */
  lemma DecidedEarly(rules: Rules, s: seq<byte>, t: seq<byte>)
    requires IsPrefix(s, t) && !Undecided(rules, s)
    ensures Whole(rules, s) == Whole(rules, t)
  {
    ExpectationIsStable(rules, s, t);
    if ExpectedLength(rules, s).Ok? {
      var n := ExpectedLength(rules, s).value.value;
      if n <= MAX_RESPONSE_BYTES {
        PrefixSlice(s, t, 0, n);
      }
    }
  }

  /** However the stream is cut into reads, the loop ends with what the whole stream
      comes to, or, only when the stream is longer than the limit, says so. */
  lemma {:induction false} SegmentationIsIrrelevant(rules: Rules, held: seq<byte>, segments: seq<seq<byte>>)
    requires forall i :: 0 <= i < |segments| ==> segments[i] != []
    requires Undecided(rules, held)
    ensures var result, stream := ReadOn(rules, held, segments), held + Concat(segments);
            result == Whole(rules, stream)
            || (result == Err(ResponseTooLarge) && |stream| > MAX_RESPONSE_BYTES)
    decreases |segments|
  {
    if segments == [] {
      assert held + Concat(segments) == held;
    } else {
      var b, rest := held + segments[0], segments[1..];
      assert held + Concat(segments) == b + Concat(rest);
      if |b| <= MAX_RESPONSE_BYTES {
        if Undecided(rules, b) {
          SegmentationIsIrrelevant(rules, b, rest);
        } else {
          assert IsPrefix(b, b + Concat(rest));
          DecidedEarly(rules, b, b + Concat(rest));
        }
      }
    }
  }

  /** Two ways of cutting a stream within the limit end the same. */
  lemma AnyTwoSegmentationsAgree(first: seq<seq<byte>>, second: seq<seq<byte>>)
    requires Concat(first) == Concat(second) && |Concat(first)| <= MAX_RESPONSE_BYTES
    requires forall i :: 0 <= i < |first| ==> first[i] != []
    requires forall i :: 0 <= i < |second| ==> second[i] != []
    ensures ReadOn(HTTP, [], first) == ReadOn(HTTP, [], second)
  {
    SegmentationIsIrrelevant(HTTP, [], first);
    SegmentationIsIrrelevant(HTTP, [], second);
    assert [] + Concat(first) == Concat(first);
    assert [] + Concat(second) == Concat(second);
  }
}
