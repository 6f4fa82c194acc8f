/** Chunked encoding and what the decoder, and the whole read, make of it. */
module HttpRoundTrip {
  import opened Base
  import Utf8
  import opened HttpText
  import opened HttpFraming
  import opened HttpRead

  const CRLF: seq<byte> := [CR, LF]

  /** A chunk as sent: the line its size is spelled on, and its data. */
  datatype Chunk = Chunk(line: seq<byte>, data: seq<byte>)

  /** A size line the sender may write for `n`: it reads as `n`, and the CRLF after
      it is the first one. Any case, leading zeros and extensions are allowed. */
  predicate Spells(size: SizeRule, line: seq<byte>, n: nat)
  {
    size(line) == Ok(n) && EndsWhereItSays(line)
  }

  predicate EndsWhereItSays(line: seq<byte>)
  {
    forall i :: 0 <= i < |line| ==> !At(line + CRLF, CrLf, i)
  }

  function EncodeChunk(c: Chunk): seq<byte>
  {
    c.line + CRLF + c.data + CRLF
  }

  function EncodeChunks(chunks: seq<Chunk>): seq<byte>
  {
    if chunks == [] then [] else EncodeChunk(chunks[0]) + EncodeChunks(chunks[1..])
  }

  function Payload(chunks: seq<Chunk>): seq<byte>
  {
    if chunks == [] then [] else chunks[0].data + Payload(chunks[1..])
  }

  /** What follows the last chunk's size line: a bare CRLF, or trailer fields up to
      a blank line. */
  predicate IsEnding(x: seq<byte>)
  {
    x == CRLF || (!At(x, CrLf, 0) && Find(x, Blank, 0) == Some(|x| - 4))
  }

  ghost predicate Sendable(size: SizeRule, chunks: seq<Chunk>)
  {
    forall i :: 0 <= i < |chunks| ==> chunks[i].data != [] && Spells(size, chunks[i].line, |chunks[i].data|)
  }

  /** `w` lies in `e` at `at`. */
  predicate Lies(e: seq<byte>, w: seq<byte>, at: nat)
  {
    at + |w| <= |e| && forall k :: 0 <= k < |w| ==> e[at + k] == w[k]
  }

  lemma LiesSplit(e: seq<byte>, a: seq<byte>, b: seq<byte>, at: nat)
    requires Lies(e, a + b, at)
    ensures Lies(e, a, at) && Lies(e, b, at + |a|)
  {
    assert forall k :: 0 <= k < |a| ==> (a + b)[k] == a[k];
    assert forall k :: 0 <= k < |b| ==> (a + b)[|a| + k] == b[k];
  }

  lemma LiesSlice(e: seq<byte>, w: seq<byte>, at: nat)
    requires Lies(e, w, at)
    ensures e[at..at + |w|] == w
  {
  }

  /** Looking inside a piece of the input is looking at the input. */
  lemma AtWithin(e: seq<byte>, w: seq<byte>, mark: Mark, at: nat, i: nat)
    requires Lies(e, w, at) && i + mark.Length() <= |w|
    ensures At(e, mark, at + i) == At(w, mark, i)
  {
    assert e[at + i] == w[i] && e[at + (i + 1)] == w[i + 1];
    if mark == Blank {
      assert e[at + (i + 2)] == w[i + 2] && e[at + (i + 3)] == w[i + 3];
    }
  }

  /** What is first in a piece of the input is first from where the piece starts. */
  lemma FindWithin(e: seq<byte>, w: seq<byte>, mark: Mark, at: nat, i: nat)
    requires Lies(e, w, at) && i + mark.Length() <= |w|
    requires At(w, mark, i) && forall j :: 0 <= j < i ==> !At(w, mark, j)
    ensures Find(e, mark, at) == Some(at + i)
  {
    AtWithin(e, w, mark, at, i);
    forall m | at <= m < at + i
      ensures !At(e, mark, m)
    {
      AtWithin(e, w, mark, at, m - at);
    }
  }

  lemma SizeLineEnds(e: seq<byte>, at: nat, line: seq<byte>)
    requires Lies(e, line + CRLF, at) && EndsWhereItSays(line)
    ensures Find(e, CrLf, at) == Some(at + |line|) && e[at..at + |line|] == line
  {
    FindWithin(e, line + CRLF, CrLf, at, |line|);
    LiesSplit(e, line, CRLF, at);
    LiesSlice(e, line, at);
  }

  lemma NextIsData(size: SizeRule, e: seq<byte>, at: nat, c: Chunk)
    requires |e| <= USIZE_MAX && at <= |e| && Lies(e, EncodeChunk(c), at)
    requires c.data != [] && Spells(size, c.line, |c.data|)
    ensures var start := at + |c.line| + 2;
            && NextPiece(size, e, at) == Data(start, start + |c.data|)
            && e[start..start + |c.data|] == c.data
  {
    var start := at + |c.line| + 2;
    LiesSplit(e, c.line + CRLF + c.data, CRLF, at);
    LiesSplit(e, c.line + CRLF, c.data, at);
    SizeLineEnds(e, at, c.line);
    LiesSlice(e, c.data, start);
    AtWithin(e, CRLF, CrLf, start + |c.data|, 0);
  }

  lemma NextIsLast(size: SizeRule, e: seq<byte>, at: nat, line: seq<byte>, ending: seq<byte>)
    requires at <= |e| && Lies(e, line + CRLF + ending, at)
    requires Spells(size, line, 0) && IsEnding(ending)
    ensures NextPiece(size, e, at) == Last(at + |line| + 2 + |ending|)
  {
    var start := at + |line| + 2;
    LiesSplit(e, line + CRLF, ending, at);
    SizeLineEnds(e, at, line);
    AtWithin(e, ending, CrLf, start, 0);
    if ending != CRLF {
      FindWithin(e, ending, Blank, start, |ending| - 4);
    }
  }

  /** A whole chunked body: the chunks, the last size line, and the ending. */
  function Encoded(chunks: seq<Chunk>, line: seq<byte>, ending: seq<byte>): seq<byte>
  {
    EncodeChunks(chunks) + (line + CRLF + ending)
  }

  lemma DecodeOneChunk(size: SizeRule, e: seq<byte>, at: nat, decoded: seq<byte>, c: Chunk, rest: seq<byte>,
                       next: nat, more: seq<byte>)
    requires |e| <= USIZE_MAX && at <= |e|
    requires Lies(e, EncodeChunk(c) + rest, at)
    requires c.data != [] && Spells(size, c.line, |c.data|)
    requires |decoded| + |c.data| <= MAX_RESPONSE_BYTES
    requires next == at + |EncodeChunk(c)| && more == decoded + c.data
    ensures next <= |e| && Lies(e, rest, next)
    ensures DecodeFrom(size, e, at, decoded) == DecodeFrom(size, e, next, more)
  {
    LiesSplit(e, EncodeChunk(c), rest, at);
    NextIsData(size, e, at, c);
    var start := at + |c.line| + 2;
    DataStepTo(size, e, at, decoded, start, start + |c.data|, next, more);
  }

  /** The decoder takes a run of chunks and goes on behind it. */
  lemma {:induction false} DecodeChunks(size: SizeRule, e: seq<byte>, at: nat, decoded: seq<byte>, chunks: seq<Chunk>,
                                        next: nat, more: seq<byte>)
    requires |e| <= USIZE_MAX && at <= |e|
    requires Lies(e, EncodeChunks(chunks), at) && Sendable(size, chunks)
    requires |decoded| + |Payload(chunks)| <= MAX_RESPONSE_BYTES
    requires next == at + |EncodeChunks(chunks)| && more == decoded + Payload(chunks)
    ensures next <= |e| && DecodeFrom(size, e, at, decoded) == DecodeFrom(size, e, next, more)
    decreases |chunks|
  {
    if chunks == [] {
      assert more == decoded;
    } else {
      var c, rest := chunks[0], chunks[1..];
      var middle, so := at + |EncodeChunk(c)|, decoded + c.data;
      SendableParts(size, chunks);
      DecodeOneChunk(size, e, at, decoded, c, EncodeChunks(rest), middle, so);
      assert more == so + Payload(rest);
      DecodeChunks(size, e, middle, so, rest, next, more);
    }
  }

  lemma SendableParts(size: SizeRule, chunks: seq<Chunk>)
    requires chunks != [] && Sendable(size, chunks)
    ensures chunks[0].data != [] && Spells(size, chunks[0].line, |chunks[0].data|)
    ensures Sendable(size, chunks[1..]) && |Payload(chunks)| == |chunks[0].data| + |Payload(chunks[1..])|
  {
  }

  lemma DecodeLast(size: SizeRule, e: seq<byte>, at: nat, decoded: seq<byte>, line: seq<byte>, ending: seq<byte>,
                   end: nat)
    requires at <= |e| <= USIZE_MAX && Lies(e, line + CRLF + ending, at)
    requires Spells(size, line, 0) && IsEnding(ending) && end == at + |line| + 2 + |ending|
    ensures DecodeFrom(size, e, at, decoded) == Ok(Some((decoded, end)))
  {
    NextIsLast(size, e, at, line, ending);
    LastStep(size, e, at, decoded, end);
  }

  /** Decoding undoes chunked encoding: for every list of non-empty chunks within the
      limit, any spelling of their sizes, any trailer, and whatever bytes surround it,
      the decoder returns the data and stops exactly at the end of the encoding. */
  lemma DecodingUndoesEncoding(size: SizeRule, e: seq<byte>, at: nat, decoded: seq<byte>,
                               chunks: seq<Chunk>, line: seq<byte>, ending: seq<byte>, end: nat)
    requires |e| <= USIZE_MAX && at <= |e|
    requires Lies(e, Encoded(chunks, line, ending), at) && end == at + |Encoded(chunks, line, ending)|
    requires Sendable(size, chunks) && Spells(size, line, 0) && IsEnding(ending)
    requires |decoded| + |Payload(chunks)| <= MAX_RESPONSE_BYTES
    ensures DecodeFrom(size, e, at, decoded) == Ok(Some((decoded + Payload(chunks), end)))
  {
    var rest := at + |EncodeChunks(chunks)|;
    LiesSplit(e, EncodeChunks(chunks), line + CRLF + ending, at);
    DecodeChunks(size, e, at, decoded, chunks, rest, decoded + Payload(chunks));
    DecodeTail(size, e, at, rest, decoded, decoded + Payload(chunks), line, ending, end);
  }

  lemma DecodeTail(size: SizeRule, e: seq<byte>, at: nat, rest: nat, decoded: seq<byte>, more: seq<byte>,
                   line: seq<byte>, ending: seq<byte>, end: nat)
    requires at <= |e| && rest <= |e| <= USIZE_MAX && Lies(e, line + CRLF + ending, rest)
    requires Spells(size, line, 0) && IsEnding(ending) && end == rest + |line| + 2 + |ending|
    requires DecodeFrom(size, e, at, decoded) == DecodeFrom(size, e, rest, more)
    ensures DecodeFrom(size, e, at, decoded) == Ok(Some((more, end)))
  {
    DecodeLast(size, e, rest, more, line, ending, end);
  }

  lemma SliceLies(e: seq<byte>, i: nat, j: nat)
    requires i <= j <= |e|
    ensures Lies(e, e[i..j], i)
  {
  }

  /** A size line found is one that ends where it says. */
  lemma FoundLine(e: seq<byte>, at: nat, end: nat)
    requires Find(e, CrLf, at) == Some(end) && at <= end
    ensures Lies(e, e[at..end] + CRLF, at) && EndsWhereItSays(e[at..end])
  {
    var w := e[at..end] + CRLF;
    assert Lies(e, w, at);
    forall i | 0 <= i < end - at
      ensures !At(w, CrLf, i)
    {
      AtWithin(e, w, CrLf, at, i);
    }
  }

  /** A piece read as data was sent as a chunk. */
  lemma DataIsAChunk(size: SizeRule, e: seq<byte>, at: nat, start: nat, end: nat) returns (c: Chunk)
    requires at <= |e| && NextPiece(size, e, at) == Data(start, end)
    ensures c.data == e[start..end] != [] && Spells(size, c.line, |c.data|)
    ensures Lies(e, EncodeChunk(c), at) && end + 2 == at + |EncodeChunk(c)|
  {
    var lineEnd := Find(e, CrLf, at).value;
    FoundLine(e, at, lineEnd);
    c := Chunk(e[at..lineEnd], e[start..end]);
    ChunkLies(e, at, c, start, end);
  }

  lemma ChunkLies(e: seq<byte>, at: nat, c: Chunk, start: nat, end: nat)
    requires at + |c.line| + 2 == start <= end && At(e, CrLf, end)
    requires Lies(e, c.line + CRLF, at) && c.data == e[start..end]
    ensures Lies(e, EncodeChunk(c), at)
  {
    var w := EncodeChunk(c);
    forall k | 0 <= k < |w|
      ensures e[at + k] == w[k]
    {
      if k < |c.line| + 2 {
        assert w[k] == (c.line + CRLF)[k];
      } else if k < |c.line| + 2 + |c.data| {
        assert w[k] == c.data[k - |c.line| - 2];
      } else {
        assert w[k] == CRLF[k - |c.line| - 2 - |c.data|];
      }
    }
  }

  /** What was read as the end was sent as one. */
  lemma LastIsAnEnding(size: SizeRule, e: seq<byte>, at: nat, end: nat) returns (line: seq<byte>, ending: seq<byte>)
    requires at <= |e| && NextPiece(size, e, at) == Last(end)
    ensures Spells(size, line, 0) && IsEnding(ending)
    ensures Lies(e, line + CRLF + ending, at) && end == at + |line + CRLF + ending|
  {
    var lineEnd := Find(e, CrLf, at).value;
    var start := lineEnd + 2;
    FoundLine(e, at, lineEnd);
    line, ending := e[at..lineEnd], e[start..end];
    SliceLies(e, start, end);
    if At(e, CrLf, start) {
      assert ending == CRLF;
    } else {
      TrailerEnds(e, start, end);
    }
    LiesJoin(e, line + CRLF, ending, at);
  }

  lemma TrailerEnds(e: seq<byte>, start: nat, end: nat)
    requires !At(e, CrLf, start) && start + 4 <= end && Find(e, Blank, start) == Some(end - 4)
    ensures IsEnding(e[start..end])
  {
    var x := e[start..end];
    SliceLies(e, start, end);
    AtWithin(e, x, CrLf, start, 0);
    AtWithin(e, x, Blank, start, |x| - 4);
    forall j | 0 <= j < |x| - 4
      ensures !At(x, Blank, j)
    {
      AtWithin(e, x, Blank, start, j);
    }
    FindWithin(x, x, Blank, 0, |x| - 4);
  }

  lemma LiesJoin(e: seq<byte>, a: seq<byte>, b: seq<byte>, at: nat)
    requires Lies(e, a, at) && Lies(e, b, at + |a|)
    ensures Lies(e, a + b, at)
  {
    forall k | 0 <= k < |a + b|
      ensures e[at + k] == (a + b)[k]
    {
      if k >= |a| {
        assert (a + b)[k] == b[k - |a|] && e[at + |a| + (k - |a|)] == b[k - |a|];
      }
    }
  }

  /** These chunks and this end are what was sent from `at` up to `end`. */
  ghost predicate WasSent(size: SizeRule, e: seq<byte>, at: nat, chunks: seq<Chunk>, line: seq<byte>, ending: seq<byte>,
                          end: nat)
  {
    && Sendable(size, chunks) && Spells(size, line, 0) && IsEnding(ending)
    && Lies(e, Encoded(chunks, line, ending), at) && end == at + |Encoded(chunks, line, ending)|
  }

  lemma EncodedFirst(c: Chunk, rest: seq<Chunk>, line: seq<byte>, ending: seq<byte>)
    ensures Encoded([c] + rest, line, ending) == EncodeChunk(c) + Encoded(rest, line, ending)
    ensures Payload([c] + rest) == c.data + Payload(rest)
  {
    assert ([c] + rest)[1..] == rest;
  }

  lemma OneMoreWasSent(size: SizeRule, e: seq<byte>, at: nat, c: Chunk, next: nat, rest: seq<Chunk>, line: seq<byte>,
                       ending: seq<byte>, end: nat)
    requires c.data != [] && Spells(size, c.line, |c.data|) && Lies(e, EncodeChunk(c), at)
    requires next == at + |EncodeChunk(c)| && WasSent(size, e, next, rest, line, ending, end)
    ensures WasSent(size, e, at, [c] + rest, line, ending, end)
  {
    EncodedFirst(c, rest, line, ending);
    LiesJoin(e, EncodeChunk(c), Encoded(rest, line, ending), at);
    forall i | 0 <= i < |[c] + rest|
      ensures ([c] + rest)[i].data != [] && Spells(size, ([c] + rest)[i].line, |([c] + rest)[i].data|)
    {
      assert i > 0 ==> ([c] + rest)[i] == rest[i - 1];
    }
  }

  lemma NothingMoreWasSent(size: SizeRule, e: seq<byte>, at: nat, end: nat) returns (line: seq<byte>, ending: seq<byte>)
    requires at <= |e| && NextPiece(size, e, at) == Last(end)
    ensures WasSent(size, e, at, [], line, ending, end)
  {
    line, ending := LastIsAnEnding(size, e, at, end);
    assert [] + (line + CRLF + ending) == line + CRLF + ending;
  }

  lemma DecodedStep(size: SizeRule, e: seq<byte>, at: nat, decoded: seq<byte>, body: seq<byte>, end: nat)
    requires at <= |e| && DecodeFrom(size, e, at, decoded) == Ok(Some((body, end)))
    ensures var piece := NextPiece(size, e, at);
            || (piece == Last(end) && body == decoded)
            || (piece.Data? && DecodeFrom(size, e, piece.end + 2, decoded + e[piece.start..piece.end]) == Ok(Some((body, end))))
  {
    PieceStep(size, e, at, decoded, NextPiece(size, e, at));
  }

  lemma DecodedOn(size: SizeRule, e: seq<byte>, at: nat, c: Chunk, next: nat, rest: seq<Chunk>, line: seq<byte>,
                  ending: seq<byte>, end: nat, decoded: seq<byte>, more: seq<byte>, body: seq<byte>)
    returns (chunks: seq<Chunk>)
    requires c.data != [] && Spells(size, c.line, |c.data|) && Lies(e, EncodeChunk(c), at)
    requires next == at + |EncodeChunk(c)| && WasSent(size, e, next, rest, line, ending, end)
    requires more == decoded + c.data && body == more + Payload(rest)
    ensures WasSent(size, e, at, chunks, line, ending, end) && body == decoded + Payload(chunks)
  {
    chunks := [c] + rest;
    OneMoreWasSent(size, e, at, c, next, rest, line, ending, end);
    EncodedFirst(c, rest, line, ending);
    assert decoded + c.data + Payload(rest) == decoded + (c.data + Payload(rest));
  }

  /** The decoder accepts nothing else: what it decodes is the encoding of what it
      returns, up to where it stops. */
  lemma {:induction false} DecodedWasEncoded(size: SizeRule, e: seq<byte>, at: nat, decoded: seq<byte>, body: seq<byte>,
                                             end: nat)
    returns (chunks: seq<Chunk>, line: seq<byte>, ending: seq<byte>)
    requires at <= |e| && DecodeFrom(size, e, at, decoded) == Ok(Some((body, end)))
    ensures WasSent(size, e, at, chunks, line, ending, end) && body == decoded + Payload(chunks)
    decreases |e| - at
  {
    var piece := NextPiece(size, e, at);
    DecodedStep(size, e, at, decoded, body, end);
    if piece.Last? {
      line, ending := NothingMoreWasSent(size, e, at, end);
      chunks := [];
      assert decoded + Payload(chunks) == decoded;
    } else {
      var c := DataIsAChunk(size, e, at, piece.start, piece.end);
      var rest, next, more := [], piece.end + 2, decoded + e[piece.start..piece.end];
      rest, line, ending := DecodedWasEncoded(size, e, next, more, body, end);
      chunks := DecodedOn(size, e, at, c, next, rest, line, ending, end, decoded, more, body);
    }
  }

  /** A chunked body cut short is not a body yet, whatever was sent of it. */
  lemma CutOffChunksAreIncomplete(size: SizeRule, chunks: seq<Chunk>, line: seq<byte>, ending: seq<byte>, s: seq<byte>)
    requires Sendable(size, chunks) && Spells(size, line, 0) && IsEnding(ending)
    requires |Payload(chunks)| <= MAX_RESPONSE_BYTES && |Encoded(chunks, line, ending)| <= USIZE_MAX
    requires s < Encoded(chunks, line, ending)
    ensures BodyLength(size, Chunked, s) == Ok(None) && FramedBody(size, Chunked, s) == Err(IncompleteBody)
  {
    var whole := Encoded(chunks, line, ending);
    DecodingUndoesEncoding(size, whole, 0, [], chunks, line, ending, |whole|);
    if DecodeFrom(size, s, 0, []) != Ok(None) {
      assert IsPrefix(s, whole);
      DecodingIsStable(size, s, whole, 0, []);
      DecodingIsExact(size, s, 0, [], [] + Payload(chunks), |whole|);
      assert false;
    }
  }

  /** A whole response: headers, the blank line, then the body. */
  function Response(head: seq<byte>, body: seq<byte>): seq<byte>
  {
    head + [CR, LF, CR, LF] + body
  }

  /** The blank line that ends the headers is the first one. */
  predicate IsHead(head: seq<byte>)
  {
    forall i :: 0 <= i < |head| ==> !At(head + [CR, LF, CR, LF], Blank, i)
  }

  lemma ResponseParts(head: seq<byte>, tail: seq<byte>)
    requires IsHead(head)
    ensures var b := Response(head, tail);
            Find(b, Blank, 0) == Some(|head|) && b[..|head|] == head && b[|head| + 4..] == tail
  {
    var b := Response(head, tail);
    FindWithin(b, head + [CR, LF, CR, LF], Blank, 0, |head|);
  }

  lemma EncodedBodyLength(size: SizeRule, chunks: seq<Chunk>, line: seq<byte>, ending: seq<byte>, extra: seq<byte>,
                          n: nat)
    requires Sendable(size, chunks) && Spells(size, line, 0) && IsEnding(ending)
    requires |Payload(chunks)| <= MAX_RESPONSE_BYTES
    requires |Encoded(chunks, line, ending)| == n <= USIZE_MAX - |extra|
    ensures var rest := Encoded(chunks, line, ending) + extra;
            BodyLength(size, Chunked, rest) == Ok(Some(n)) && FramedBody(size, Chunked, rest) == Ok(Payload(chunks))
  {
    var body := Encoded(chunks, line, ending);
    assert Lies(body + extra, body, 0);
    DecodingUndoesEncoding(size, body + extra, 0, [], chunks, line, ending, n);
    assert [] + Payload(chunks) == Payload(chunks);
  }

  lemma ExpectedFromParts(rules: Rules, b: seq<byte>, h: nat, framing: Framing, rest: seq<byte>, n: nat,
                          body: Result<seq<byte>, Error>)
    requires Find(b, Blank, 0) == Some(h) && rules.frame(b[..h]) == Ok(framing) && b[h + 4..] == rest
    requires BodyLength(rules.size, framing, rest) == Ok(Some(n)) && h + 4 + n <= USIZE_MAX
    requires FramedBody(rules.size, framing, rest) == body
    ensures ExpectedLength(rules, b) == Ok(Some(h + 4 + n)) && BodyOf(rules, b) == body
  {
  }

  lemma EncodedResponse(rules: Rules, head: seq<byte>, chunks: seq<Chunk>, line: seq<byte>, ending: seq<byte>,
                        extra: seq<byte>, n: nat)
    requires IsHead(head) && rules.frame(head) == Ok(Chunked)
    requires Sendable(rules.size, chunks) && Spells(rules.size, line, 0) && IsEnding(ending)
    requires |Payload(chunks)| <= MAX_RESPONSE_BYTES
    requires |head| + 4 + |Encoded(chunks, line, ending)| == n <= USIZE_MAX - |extra|
    ensures var b := Response(head, Encoded(chunks, line, ending) + extra);
            ExpectedLength(rules, b) == Ok(Some(n)) && BodyOf(rules, b) == Ok(Payload(chunks))
  {
    var body := Encoded(chunks, line, ending);
    EncodedBodyLength(rules.size, chunks, line, ending, extra, |body|);
    ResponseWithBody(rules, head, body, extra, n, Payload(chunks));
  }

  lemma ResponseWithBody(rules: Rules, head: seq<byte>, body: seq<byte>, extra: seq<byte>, n: nat, payload: seq<byte>)
    requires IsHead(head) && rules.frame(head) == Ok(Chunked)
    requires |head| + 4 + |body| == n <= USIZE_MAX
    requires BodyLength(rules.size, Chunked, body + extra) == Ok(Some(|body|))
    requires FramedBody(rules.size, Chunked, body + extra) == Ok(payload)
    ensures var b := Response(head, body + extra);
            ExpectedLength(rules, b) == Ok(Some(n)) && BodyOf(rules, b) == Ok(payload)
  {
    var b := Response(head, body + extra);
    ResponseParts(head, body + extra);
    ExpectedFromParts(rules, b, |head|, Chunked, body + extra, |body|, Ok(payload));
  }

  /** From end to end: a chunked response, with any bytes after it, arriving in any
      pieces within the limit, is read exactly, and its body is its payload. */
  lemma ChunkedResponseIsReadBack(rules: Rules, head: seq<byte>, chunks: seq<Chunk>, line: seq<byte>,
                                  ending: seq<byte>, extra: seq<byte>, segments: seq<seq<byte>>)
    requires IsHead(head) && rules.frame(head) == Ok(Chunked)
    requires Sendable(rules.size, chunks) && Spells(rules.size, line, 0) && IsEnding(ending)
    requires Concat(segments) == Response(head, Encoded(chunks, line, ending) + extra)
    requires |Concat(segments)| <= MAX_RESPONSE_BYTES
    requires forall i :: 0 <= i < |segments| ==> segments[i] != []
    ensures var r := Response(head, Encoded(chunks, line, ending));
            ReadOn(rules, [], segments) == Ok(r) && BodyOf(rules, r) == Ok(Payload(chunks))
  {
    var body := Encoded(chunks, line, ending);
    var stream, r := Concat(segments), Response(head, body);
    PayloadIsShorter(chunks);
    EncodedResponse(rules, head, chunks, line, ending, extra, |r|);
    EncodedResponse(rules, head, chunks, line, ending, [], |r|);
    assert body + [] == body;
    assert stream[..|r|] == r;
    ReadStopsAt(rules, segments, |r|);
  }

  lemma LengthIsExpected(rules: Rules, head: seq<byte>, tail: seq<byte>, n: nat)
    requires IsHead(head) && rules.frame(head) == Ok(ContentLength(n)) && |head| + 4 + n <= USIZE_MAX
    ensures var b := Response(head, tail);
            && ExpectedLength(rules, b) == Ok(Some(|head| + 4 + n))
            && BodyOf(rules, b) == if |tail| == n then Ok(tail) else Err(LengthMismatch)
  {
    ResponseParts(head, tail);
    ExpectedFromParts(rules, Response(head, tail), |head|, ContentLength(n), tail, n,
                      if |tail| == n then Ok(tail) else Err(LengthMismatch));
  }

  /** A response with a length, with any bytes after it and arriving in any pieces within
      the limit, is read exactly, and its body is those many bytes. */
  lemma MeasuredResponseIsReadBack(rules: Rules, head: seq<byte>, body: seq<byte>, extra: seq<byte>,
                                   segments: seq<seq<byte>>)
    requires IsHead(head) && rules.frame(head) == Ok(ContentLength(|body|))
    requires Concat(segments) == Response(head, body + extra)
    requires |Concat(segments)| <= MAX_RESPONSE_BYTES
    requires forall i :: 0 <= i < |segments| ==> segments[i] != []
    ensures ReadOn(rules, [], segments) == Ok(Response(head, body)) && BodyOf(rules, Response(head, body)) == Ok(body)
  {
    LengthIsExpected(rules, head, body + extra, |body|);
    LengthIsExpected(rules, head, body, |body|);
    assert Response(head, body + extra)[..|Response(head, body)|] == Response(head, body);
    ReadStopsAt(rules, segments, |Response(head, body)|);
  }

  /** A body cut short is read to the end of the connection, and is no body. */
  lemma CutOffResponseIsRefused(rules: Rules, head: seq<byte>, body: seq<byte>, n: nat, segments: seq<seq<byte>>)
    requires IsHead(head) && rules.frame(head) == Ok(ContentLength(n)) && |body| < n
    requires |head| + 4 + n <= MAX_RESPONSE_BYTES && Concat(segments) == Response(head, body)
    requires forall i :: 0 <= i < |segments| ==> segments[i] != []
    ensures ReadOn(rules, [], segments) == Ok(Response(head, body))
    ensures BodyOf(rules, Response(head, body)) == Err(LengthMismatch)
  {
    LengthIsExpected(rules, head, body, n);
    assert [] + Concat(segments) == Concat(segments);
    SegmentationIsIrrelevant(rules, [], segments);
  }

  /** One that announces more than the limit is refused at once. */
  lemma TooLongResponseIsRefused(rules: Rules, head: seq<byte>, body: seq<byte>, n: nat, segments: seq<seq<byte>>)
    requires IsHead(head) && rules.frame(head) == Ok(ContentLength(n))
    requires MAX_RESPONSE_BYTES < |head| + 4 + n <= USIZE_MAX && Concat(segments) == Response(head, body)
    requires forall i :: 0 <= i < |segments| ==> segments[i] != []
    ensures ReadOn(rules, [], segments) == Err(ResponseTooLarge)
  {
    LengthIsExpected(rules, head, body, n);
    assert [] + Concat(segments) == Concat(segments);
    SegmentationIsIrrelevant(rules, [], segments);
  }

  /** And so is one whose length no machine word holds. */
  lemma OverflowingResponseIsRefused(rules: Rules, head: seq<byte>, body: seq<byte>, n: nat, segments: seq<seq<byte>>)
    requires IsHead(head) && rules.frame(head) == Ok(ContentLength(n)) && |head| + 4 + n > USIZE_MAX
    requires Concat(segments) == Response(head, body) && |Concat(segments)| <= MAX_RESPONSE_BYTES
    requires forall i :: 0 <= i < |segments| ==> segments[i] != []
    ensures ReadOn(rules, [], segments) == Err(LengthOverflow)
  {
    ResponseParts(head, body);
    assert [] + Concat(segments) == Concat(segments);
    SegmentationIsIrrelevant(rules, [], segments);
  }

  /** A response that runs to the end of the connection is read whole, and its body is
      all after the blank line. */
  lemma ClosedResponseIsReadBack(rules: Rules, head: seq<byte>, body: seq<byte>, segments: seq<seq<byte>>)
    requires IsHead(head) && rules.frame(head) == Ok(CloseDelimited)
    requires Concat(segments) == Response(head, body) && |Concat(segments)| <= MAX_RESPONSE_BYTES
    requires forall i :: 0 <= i < |segments| ==> segments[i] != []
    ensures ReadOn(rules, [], segments) == Ok(Response(head, body)) && BodyOf(rules, Response(head, body)) == Ok(body)
  {
    ResponseParts(head, body);
    assert [] + Concat(segments) == Concat(segments);
    SegmentationIsIrrelevant(rules, [], segments);
  }

  lemma ReadStopsAt(rules: Rules, segments: seq<seq<byte>>, n: nat)
    requires var stream := Concat(segments);
             ExpectedLength(rules, stream) == Ok(Some(n)) && n <= |stream| <= MAX_RESPONSE_BYTES
    requires forall i :: 0 <= i < |segments| ==> segments[i] != []
    ensures ReadOn(rules, [], segments) == Ok(Concat(segments)[..n])
  {
    assert [] + Concat(segments) == Concat(segments);
    SegmentationIsIrrelevant(rules, [], segments);
  }

  lemma {:induction false} PayloadIsShorter(chunks: seq<Chunk>)
    ensures |Payload(chunks)| <= |EncodeChunks(chunks)|
  {
    if chunks != [] {
      PayloadIsShorter(chunks[1..]);
    }
  }
}
