/** HTTP/1.x response framing as the AppCommand adapter does it: when a growing
    prefix is a whole response (section 6.3 of RFC 9112), and the chunked decoder
    (section 7.1 of RFC 9112). */
module HttpFraming {
  import opened Base
  import Utf8
  import opened HttpText

  const MAX_RESPONSE_BYTES: nat := 1024 * 1024

  datatype Error =
    | HeadersNotText | NoHeaderEnd | LengthOverflow
    | DuplicateTransferEncoding | DuplicateContentLength | InvalidContentLength
    | UnsupportedTransferEncoding | ConflictingFraming
    | ChunkSizeNotText | InvalidChunkSize | ChunkSizeOverflow | NoChunkTerminator | BodyTooLarge
    | ResponseTooLarge | LengthMismatch | IncompleteBody

  datatype Framing = ContentLength(length: nat) | Chunked | CloseDelimited

  // ---- Searching ----

  /** The two marks the adapter looks for: the end of a line, and of the headers. */
  datatype Mark = CrLf | Blank {
    function Length(): nat
    {
      match this case CrLf => 2 case Blank => 4
    }

    function Bytes(): seq<byte>
    {
      match this case CrLf => [CR, LF] case Blank => [CR, LF, CR, LF]
    }
  }

  predicate At(s: seq<byte>, mark: Mark, i: nat)
  {
    && i + mark.Length() <= |s| && s[i] == CR && s[i + 1] == LF
    && (mark == Blank ==> s[i + 2] == CR && s[i + 3] == LF)
  }

  /** The first place at or after `from` where `mark` occurs. */
  function Find(s: seq<byte>, mark: Mark, from: nat): (found: Option<nat>)
    ensures found.Some? ==> from <= found.value && At(s, mark, found.value)
    ensures forall i :: from <= i && (found.Some? ==> i < found.value) ==> !At(s, mark, i)
    decreases |s| - from
  {
    if from + mark.Length() > |s| then None
    else if At(s, mark, from) then Some(from)
    else Find(s, mark, from + 1)
  }

  predicate IsPrefix(s: seq<byte>, t: seq<byte>)
  {
    |s| <= |t| && forall i :: 0 <= i < |s| ==> t[i] == s[i]
  }

  lemma PrefixSlice(s: seq<byte>, t: seq<byte>, i: nat, j: nat)
    requires IsPrefix(s, t) && i <= j <= |s|
    ensures t[i..j] == s[i..j]
  {
  }

  /** What is found in a prefix is what is found in the whole. */
  lemma FindInLonger(s: seq<byte>, t: seq<byte>, mark: Mark, from: nat)
    requires IsPrefix(s, t) && Find(s, mark, from).Some?
    ensures Find(t, mark, from) == Find(s, mark, from)
  {
    var i := Find(s, mark, from).value;
    assert At(t, mark, i);
    assert forall j :: from <= j < i ==> At(t, mark, j) == At(s, mark, j);
  }

  /** And a prefix that still holds the place finds it too. */
  lemma FindInShorter(s: seq<byte>, t: seq<byte>, mark: Mark, from: nat)
    requires IsPrefix(s, t) && Find(t, mark, from).Some?
    requires Find(t, mark, from).value + mark.Length() <= |s|
    ensures Find(s, mark, from) == Find(t, mark, from)
  {
    var i := Find(t, mark, from).value;
    assert At(s, mark, i);
    FindInLonger(s, t, mark, from);
  }

  // ---- The headers ----

  datatype Headers = Headers(contentLength: Option<nat>, transferEncoding: Option<string>)

  /** A header line as name and trimmed value, if it has a colon. */
  function HeaderOf(line: string): Option<(string, string)>
  {
    var i := IndexOf(line, ':');
    if i == |line| then None else Some((line[..i], Trim(line[i + 1..])))
  }

  predicate Names(line: string, name: string)
  {
    HeaderOf(line).Some? && SameIgnoringCase(HeaderOf(line).value.0, name)
  }

  const TRANSFER_ENCODING := "transfer-encoding"
  const CONTENT_LENGTH := "content-length"

  function TakeHeader(h: Headers, line: string): Result<Headers, Error>
  {
    if Names(line, TRANSFER_ENCODING) then
      if h.transferEncoding.Some? then Err(DuplicateTransferEncoding)
      else Ok(h.(transferEncoding := Some(HeaderOf(line).value.1)))
    else if Names(line, CONTENT_LENGTH) then
      match ParseUsize(HeaderOf(line).value.1, 10)
      case None => Err(InvalidContentLength)
      case Some(n) =>
        if h.contentLength.Some? then Err(DuplicateContentLength)
        else Ok(h.(contentLength := Some(n)))
    else Ok(h)
  }

  function TakeHeaders(lines: seq<string>): Result<Headers, Error>
  {
    if lines == [] then Ok(Headers(None, None))
    else
      match TakeHeaders(lines[..|lines| - 1])
      case Err(e) => Err(e)
      case Ok(h) => TakeHeader(h, lines[|lines| - 1])
  }

  function Decide(h: Headers): Result<Framing, Error>
  {
    if h.transferEncoding.Some? && !SameIgnoringCase(h.transferEncoding.value, "chunked") then
      Err(UnsupportedTransferEncoding)
    else
      match (h.transferEncoding.Some?, h.contentLength)
      case (true, Some(_)) => Err(ConflictingFraming)
      case (true, None) => Ok(Chunked)
      case (false, Some(n)) => Ok(ContentLength(n))
      case (false, None) => Ok(CloseDelimited)
  }

  /** The header lines after the status line. */
  function FieldLines(headers: string): seq<string>
  {
    var lines := TextLines(headers);
    if lines == [] then [] else lines[1..]
  }

  function BodyFraming(headers: string): Result<Framing, Error>
  {
    match TakeHeaders(FieldLines(headers))
    case Err(e) => Err(e)
    case Ok(h) => Decide(h)
  }

  method ReadBodyFraming(headers: string) returns (framing: Result<Framing, Error>)
    ensures framing == BodyFraming(headers)
  {
    var contentLength: Option<nat> := None;
    var transferEncoding: Option<string> := None;
    var lines := FieldLines(headers);
    var i := 0;
    while i < |lines|
      invariant 0 <= i <= |lines|
      invariant TakeHeaders(lines[..i]) == Ok(Headers(contentLength, transferEncoding))
    {
      HeaderStep(lines, i, Headers(contentLength, transferEncoding));
      HeadersStopAtError(lines, i + 1);
      var line := lines[i];
      var colon := IndexOf(line, ':');
      i := i + 1;
      if colon < |line| {
        var name, value := line[..colon], Trim(line[colon + 1..]);
        if SameIgnoringCase(name, TRANSFER_ENCODING) {
          if transferEncoding.Some? {
            return Err(DuplicateTransferEncoding);
          }
          transferEncoding := Some(value);
        }
        if SameIgnoringCase(name, CONTENT_LENGTH) {
          var length := ParseUsize(value, 10);
          if length.None? {
            return Err(InvalidContentLength);
          }
          if contentLength.Some? {
            return Err(DuplicateContentLength);
          }
          contentLength := length;
        }
      }
    }
    assert lines[..i] == lines;
    return Decide(Headers(contentLength, transferEncoding));
  }

  lemma HeaderStep(lines: seq<string>, i: nat, h: Headers)
    requires i < |lines| && TakeHeaders(lines[..i]) == Ok(h)
    ensures TakeHeaders(lines[..i + 1]) == TakeHeader(h, lines[i])
  {
    PrefixGrows(lines, i);
    LastHeader(lines[..i + 1], lines[..i], lines[i], h);
  }

  lemma LastHeader(all: seq<string>, front: seq<string>, last: string, h: Headers)
    requires all == front + [last] && TakeHeaders(front) == Ok(h)
    ensures TakeHeaders(all) == TakeHeader(h, last)
  {
    assert all[..|all| - 1] == front;
  }

  lemma {:induction false} HeadersStopAtError(lines: seq<string>, i: nat)
    requires i <= |lines|
    ensures TakeHeaders(lines[..i]).Err? ==> TakeHeaders(lines) == TakeHeaders(lines[..i])
    decreases |lines| - i
  {
    if i == |lines| {
      assert lines[..i] == lines;
    } else {
      assert lines[..i + 1][..i] == lines[..i];
      HeadersStopAtError(lines, i + 1);
    }
  }

  /** The lines that carry the header `name`. */
  function Carriers(lines: seq<string>, name: string): seq<string>
  {
    if lines == [] then []
    else
      var rest := Carriers(lines[..|lines| - 1], name);
      var last := lines[|lines| - 1];
      if Names(last, name) then rest + [last] else rest
  }

  /** The values of the header `name`, as written. */
  function Values(lines: seq<string>, name: string): seq<string>
  {
    var carriers := Carriers(lines, name);
    seq(|carriers|, i requires 0 <= i < |carriers| => Written(carriers[i]))
  }

  function Written(line: string): string
  {
    if HeaderOf(line).Some? then HeaderOf(line).value.1 else ""
  }

  ghost predicate GoodHeaders(lines: seq<string>, h: Headers)
  {
    var te, cl := Values(lines, TRANSFER_ENCODING), Values(lines, CONTENT_LENGTH);
    && te == (if h.transferEncoding.Some? then [h.transferEncoding.value] else [])
    && |cl| == (if h.contentLength.Some? then 1 else 0)
    && (h.contentLength.Some? ==> ParseUsize(cl[0], 10) == h.contentLength)
  }

  lemma ValuesStep(lines: seq<string>, name: string)
    requires lines != []
    ensures var last := lines[|lines| - 1];
            Values(lines, name) ==
            Values(lines[..|lines| - 1], name) + (if Names(last, name) then [Written(last)] else [])
  {
  }

  lemma NamesExclude(line: string)
    ensures !(Names(line, TRANSFER_ENCODING) && Names(line, CONTENT_LENGTH))
  {
    assert |TRANSFER_ENCODING| == 17 && |CONTENT_LENGTH| == 14;
  }

  /** The headers good for a list of lines are those good for all but the last,
      with the last line taken. */
  lemma GoodBefore(lines: seq<string>, h: Headers) returns (before: Headers)
    requires lines != [] && GoodHeaders(lines, h)
    ensures GoodHeaders(lines[..|lines| - 1], before)
    ensures TakeHeader(before, lines[|lines| - 1]) == Ok(h)
  {
    var last := lines[|lines| - 1];
    ValuesStep(lines, TRANSFER_ENCODING);
    ValuesStep(lines, CONTENT_LENGTH);
    NamesExclude(last);
    before := Headers(
      if Names(last, CONTENT_LENGTH) then None else h.contentLength,
      if Names(last, TRANSFER_ENCODING) then None else h.transferEncoding);
    var te, cl := Values(lines, TRANSFER_ENCODING), Values(lines, CONTENT_LENGTH);
    if Names(last, TRANSFER_ENCODING) {
      assert te[|te| - 1] == Written(last);
    } else if Names(last, CONTENT_LENGTH) {
      assert cl[|cl| - 1] == Written(last);
    }
  }

  /** Reading the header lines gives `h` exactly when each framing header occurs as
      often as `h` says, at most once, and the length is the number it spells. */
  lemma {:induction false} HeadersMeanTheirValues(lines: seq<string>, h: Headers)
    ensures TakeHeaders(lines) == Ok(h) <==> GoodHeaders(lines, h)
    decreases |lines|
  {
    if lines != [] {
      var init := lines[..|lines| - 1];
      if TakeHeaders(init).Ok? {
        HeadersMeanTheirValues(init, TakeHeaders(init).value);
        ValuesStep(lines, TRANSFER_ENCODING);
        ValuesStep(lines, CONTENT_LENGTH);
        NamesExclude(lines[|lines| - 1]);
      }
      if GoodHeaders(lines, h) {
        var before := GoodBefore(lines, h);
        HeadersMeanTheirValues(init, before);
      }
    }
  }

  lemma {:induction false} NoFramingErrors(lines: seq<string>)
    ensures TakeHeaders(lines) != Err(ConflictingFraming) && TakeHeaders(lines) != Err(UnsupportedTransferEncoding)
    decreases |lines|
  {
    if lines != [] {
      NoFramingErrors(lines[..|lines| - 1]);
    }
  }

  /** What is wrong with a header line behind these. */
  ghost predicate IsFault(before: seq<string>, line: string, e: Error)
  {
    || (e == DuplicateTransferEncoding && Names(line, TRANSFER_ENCODING) && Values(before, TRANSFER_ENCODING) != [])
    || (Names(line, CONTENT_LENGTH) &&
        if ParseUsize(Written(line), 10).None? then e == InvalidContentLength
        else e == DuplicateContentLength && Values(before, CONTENT_LENGTH) != [])
  }

  ghost predicate FaultAt(lines: seq<string>, i: nat, e: Error)
  {
    i < |lines| && TakeHeaders(lines[..i]).Ok? && IsFault(lines[..i], lines[i], e)
  }

  lemma FaultIsRefused(lines: seq<string>, line: string, e: Error)
    requires TakeHeaders(lines).Ok?
    ensures TakeHeader(TakeHeaders(lines).value, line) == Err(e) <==> IsFault(lines, line, e)
  {
    HeadersMeanTheirValues(lines, TakeHeaders(lines).value);
    NamesExclude(line);
  }

  lemma StepAfter(lines: seq<string>, i: nat)
    requires i < |lines| && TakeHeaders(lines[..i]).Ok?
    ensures TakeHeaders(lines[..i + 1]) == TakeHeader(TakeHeaders(lines[..i]).value, lines[i])
  {
    HeaderStep(lines, i, TakeHeaders(lines[..i]).value);
  }

  lemma {:induction false} FirstFault(lines: seq<string>, n: nat, e: Error) returns (i: nat)
    requires n <= |lines| && TakeHeaders(lines[..n]) == Err(e)
    ensures FaultAt(lines, i, e)
    decreases n
  {
    i := n - 1;
    if TakeHeaders(lines[..i]).Ok? {
      StepAfter(lines, i);
      FaultIsRefused(lines[..i], lines[i], e);
    } else {
      HeadersStopAtError(lines[..n], i);
      assert lines[..n][..i] == lines[..i];
      i := FirstFault(lines, i, e);
    }
  }

  /** The error is that of the first line at fault: a second transfer encoding, a length
      that is no number, or a second length. */
  lemma HeadersFailAtTheFirstFault(lines: seq<string>, e: Error)
    ensures TakeHeaders(lines) == Err(e) <==> exists i: nat :: FaultAt(lines, i, e)
  {
    if TakeHeaders(lines) == Err(e) {
      assert lines[..|lines|] == lines;
      var _ := FirstFault(lines, |lines|, e);
    }
    if i: nat :| FaultAt(lines, i, e) {
      StepAfter(lines, i);
      FaultIsRefused(lines[..i], lines[i], e);
      HeadersStopAtError(lines, i + 1);
    }
  }

  /** A response is chunked exactly when it has one Transfer-Encoding, `chunked`, and
      no Content-Length; it has a length exactly when that header alone occurs, once,
      with that number; it runs to the end of the connection exactly when neither does. */
  lemma FramingIsDecidedByTheHeaders(headers: string)
    ensures var lines := FieldLines(headers);
            var te, cl := Values(lines, TRANSFER_ENCODING), Values(lines, CONTENT_LENGTH);
            && (BodyFraming(headers) == Ok(Chunked) <==>
                  |te| == 1 && SameIgnoringCase(te[0], "chunked") && cl == [])
            && (forall n: nat :: BodyFraming(headers) == Ok(ContentLength(n)) <==>
                  te == [] && |cl| == 1 && ParseUsize(cl[0], 10) == Some(n))
            && (BodyFraming(headers) == Ok(CloseDelimited) <==> te == [] && cl == [])
            && (BodyFraming(headers) == Err(ConflictingFraming) <==>
                  && |te| == 1 && SameIgnoringCase(te[0], "chunked")
                  && |cl| == 1 && ParseUsize(cl[0], 10).Some?)
            && (BodyFraming(headers) == Err(UnsupportedTransferEncoding) <==>
                  && |te| == 1 && !SameIgnoringCase(te[0], "chunked")
                  && |cl| <= 1 && (|cl| == 1 ==> ParseUsize(cl[0], 10).Some?))
  {
    NoFramingErrors(FieldLines(headers));
    var lines := FieldLines(headers);
    var te, cl := Values(lines, TRANSFER_ENCODING), Values(lines, CONTENT_LENGTH);
    if TakeHeaders(lines).Ok? {
      HeadersMeanTheirValues(lines, TakeHeaders(lines).value);
    }
    if |te| <= 1 && |cl| <= 1 && (|cl| == 1 ==> ParseUsize(cl[0], 10).Some?) {
      var h := Headers(if cl == [] then None else ParseUsize(cl[0], 10),
                       if te == [] then None else Some(te[0]));
      HeadersMeanTheirValues(lines, h);
    }
  }

  // ---- The chunked decoder ----

  /** The size a chunk-size line gives: hexadecimal, up to a `;`, trimmed. */
  function ChunkSize(line: seq<byte>): Result<nat, Error>
  {
    if !Utf8.IsText(line) then Err(ChunkSizeNotText)
    else
      var text := Utf8.Decode(line);
      match ParseUsize(Trim(text[..IndexOf(text, ';')]), 16)
      case None => Err(InvalidChunkSize)
      case Some(n) => Ok(n)
  }

  /** How a chunk-size line is read. What follows about chunks does not depend on it. */
  type SizeRule = seq<byte> -> Result<nat, Error>

  /** What the decoder makes of one chunk. */
  datatype Piece =
    | More                          // not enough bytes yet
    | Bad(error: Error)
    | Data(start: nat, end: nat)    // a chunk's data, its CRLF after it
    | Last(end: nat)                // the last chunk and its trailer

  function NextPiece(sizeOf: SizeRule, e: seq<byte>, cursor: nat): (p: Piece)
    requires cursor <= |e|
    ensures p.Data? ==> cursor < p.start < p.end && p.end + 2 <= |e|
    ensures p.Last? ==> cursor < p.end <= |e|
  {
    match Find(e, CrLf, cursor)
    case None => More
    case Some(lineEnd) =>
      match sizeOf(e[cursor..lineEnd])
      case Err(error) => Bad(error)
      case Ok(size) =>
        var start := lineEnd + 2;
        if size == 0 then
          if At(e, CrLf, start) then Last(start + 2)
          else
            match Find(e, Blank, start)
            case None => More
            case Some(i) => Last(i + 4)
        else
          var end := start + size;
          if end + 2 > USIZE_MAX then Bad(ChunkSizeOverflow)
          else if |e| < end + 2 then More
          else if !At(e, CrLf, end) then Bad(NoChunkTerminator)
          else Data(start, end)
  }

  type Decoded = Result<Option<(seq<byte>, nat)>, Error>

  function DecodeFrom(sizeOf: SizeRule, e: seq<byte>, cursor: nat, decoded: seq<byte>): Decoded
    requires cursor <= |e|
    decreases |e| - cursor
  {
    match NextPiece(sizeOf, e, cursor)
    case More => Ok(None)
    case Bad(error) => Err(error)
    case Last(end) => Ok(Some((decoded, end)))
    case Data(start, end) =>
      if |decoded| + (end - start) > MAX_RESPONSE_BYTES then Err(BodyTooLarge)
      else DecodeFrom(sizeOf, e, end + 2, decoded + e[start..end])
  }

  /** One turn of the decoder. `sizeOf` reads a size line; the source's is `ChunkSize`. */
  method ReadPiece(sizeOf: SizeRule, encoded: seq<byte>, cursor: nat) returns (piece: Piece)
    requires cursor <= |encoded|
    ensures piece == NextPiece(sizeOf, encoded, cursor)
  {
    var found := Find(encoded, CrLf, cursor);
    if found.None? {
      return More;
    }
    var sized := sizeOf(encoded[cursor..found.value]);
    if sized.Err? {
      return Bad(sized.error);
    }
    var start := found.value + 2;
    if sized.value == 0 {
      if At(encoded, CrLf, start) {
        return Last(start + 2);
      }
      var trailer := Find(encoded, Blank, start);
      return if trailer.None? then More else Last(trailer.value + 4);
    }
    if start + sized.value > USIZE_MAX {
      return Bad(ChunkSizeOverflow);
    }
    var end := start + sized.value;
    if end + 2 > USIZE_MAX {
      return Bad(ChunkSizeOverflow);
    }
    if |encoded| < end + 2 {
      return More;
    }
    return if At(encoded, CrLf, end) then Data(start, end) else Bad(NoChunkTerminator);
  }

  method DecodeChunkedBody(sizeOf: SizeRule, encoded: seq<byte>) returns (result: Decoded)
    ensures result == DecodeFrom(sizeOf, encoded, 0, [])
  {
    var decoded: seq<byte> := [];
    var cursor := 0;
    ghost var goal := DecodeFrom(sizeOf, encoded, 0, []);
    while true
      invariant 0 <= cursor <= |encoded|
      invariant DecodeFrom(sizeOf, encoded, cursor, decoded) == goal
      decreases |encoded| - cursor
    {
      var piece := ReadPiece(sizeOf, encoded, cursor);
      PieceStep(sizeOf, encoded, cursor, decoded, piece);
      match piece {
        case More => return Ok(None);
        case Bad(error) => return Err(error);
        case Last(end) => return Ok(Some((decoded, end)));
        case Data(start, end) =>
          if |decoded| + (end - start) > MAX_RESPONSE_BYTES {
            return Err(BodyTooLarge);
          }
          decoded := decoded + encoded[start..end];
          cursor := end + 2;
      }
    }
  }

  /** What the decoder does next, by the piece it reads. */
  lemma PieceStep(sizeOf: SizeRule, e: seq<byte>, cursor: nat, decoded: seq<byte>, piece: Piece)
    requires cursor <= |e| && NextPiece(sizeOf, e, cursor) == piece
    ensures match piece
            case More => DecodeFrom(sizeOf, e, cursor, decoded) == Ok(None)
            case Bad(error) => DecodeFrom(sizeOf, e, cursor, decoded) == Err(error)
            case Last(end) => DecodeFrom(sizeOf, e, cursor, decoded) == Ok(Some((decoded, end)))
            case Data(start, end) =>
              if |decoded| + (end - start) > MAX_RESPONSE_BYTES
              then DecodeFrom(sizeOf, e, cursor, decoded) == Err(BodyTooLarge)
              else DecodeFrom(sizeOf, e, cursor, decoded) == DecodeFrom(sizeOf, e, end + 2, decoded + e[start..end])
  {
  }

  /** A piece decided on a prefix is decided the same on the whole. */
  lemma PieceIsStable(sizeOf: SizeRule, s: seq<byte>, t: seq<byte>, cursor: nat)
    requires IsPrefix(s, t) && cursor <= |s| && NextPiece(sizeOf, s, cursor) != More
    ensures NextPiece(sizeOf, t, cursor) == NextPiece(sizeOf, s, cursor)
  {
    FindInLonger(s, t, CrLf, cursor);
    var lineEnd := Find(s, CrLf, cursor).value;
    PrefixSlice(s, t, cursor, lineEnd);
    var sized := sizeOf(s[cursor..lineEnd]);
    var start := lineEnd + 2;
    if sized == Ok(0) {
      if At(s, CrLf, start) {
        PrefixSlice(s, t, start, start + 2);
      } else {
        NotYetBlank(s, t, start);
        FindInLonger(s, t, Blank, start);
      }
    } else if sized.Ok? && start + sized.value + 2 <= |s| {
      PrefixSlice(s, t, start + sized.value, start + sized.value + 2);
    }
  }

  /** Two bytes that are there and are not CRLF stay so. */
  lemma NotYetBlank(s: seq<byte>, t: seq<byte>, start: nat)
    requires IsPrefix(s, t) && !At(s, CrLf, start) && Find(s, Blank, start).Some?
    ensures !At(t, CrLf, start)
  {
    PrefixSlice(s, t, start, start + 2);
  }

  lemma DataStep(sizeOf: SizeRule, e: seq<byte>, cursor: nat, decoded: seq<byte>, start: nat, end: nat)
    requires cursor <= |e| && NextPiece(sizeOf, e, cursor) == Data(start, end)
    requires |decoded| + (end - start) <= MAX_RESPONSE_BYTES
    ensures DecodeFrom(sizeOf, e, cursor, decoded) == DecodeFrom(sizeOf, e, end + 2, decoded + e[start..end])
  {
  }

  lemma LastStep(sizeOf: SizeRule, e: seq<byte>, cursor: nat, decoded: seq<byte>, end: nat)
    requires cursor <= |e| && NextPiece(sizeOf, e, cursor) == Last(end)
    ensures DecodeFrom(sizeOf, e, cursor, decoded) == Ok(Some((decoded, end)))
  {
  }

  /** The same, with the place and the data it goes on with named. */
  lemma DataStepTo(sizeOf: SizeRule, e: seq<byte>, cursor: nat, decoded: seq<byte>, start: nat, end: nat, next: nat,
                   more: seq<byte>)
    requires cursor <= |e| && NextPiece(sizeOf, e, cursor) == Data(start, end)
    requires |decoded| + (end - start) <= MAX_RESPONSE_BYTES
    requires next == end + 2 && more == decoded + e[start..end]
    ensures next <= |e| && DecodeFrom(sizeOf, e, cursor, decoded) == DecodeFrom(sizeOf, e, next, more)
  {
    DataStep(sizeOf, e, cursor, decoded, start, end);
  }

  /** More bytes never change a decoding that is over, whether it succeeded or failed. */
  lemma {:induction false} DecodingIsStable(sizeOf: SizeRule, s: seq<byte>, t: seq<byte>, cursor: nat, decoded: seq<byte>)
    requires IsPrefix(s, t) && cursor <= |s| && DecodeFrom(sizeOf, s, cursor, decoded) != Ok(None)
    ensures DecodeFrom(sizeOf, t, cursor, decoded) == DecodeFrom(sizeOf, s, cursor, decoded)
    decreases |s| - cursor
  {
    PieceIsStable(sizeOf, s, t, cursor);
    var piece := NextPiece(sizeOf, s, cursor);
    if piece.Data? && |decoded| + (piece.end - piece.start) <= MAX_RESPONSE_BYTES {
      var next, more := piece.end + 2, decoded + s[piece.start..piece.end];
      PrefixSlice(s, t, piece.start, piece.end);
      DataStepTo(sizeOf, s, cursor, decoded, piece.start, piece.end, next, more);
      DataStepTo(sizeOf, t, cursor, decoded, piece.start, piece.end, next, more);
      DecodingIsStable(sizeOf, s, t, next, more);
    } else {
      EndIsStable(sizeOf, s, t, cursor, decoded);
    }
  }

  lemma EndIsStable(sizeOf: SizeRule, s: seq<byte>, t: seq<byte>, cursor: nat, decoded: seq<byte>)
    requires cursor <= |s| && cursor <= |t| && NextPiece(sizeOf, s, cursor) == NextPiece(sizeOf, t, cursor)
    requires var piece := NextPiece(sizeOf, s, cursor);
             !piece.Data? || |decoded| + (piece.end - piece.start) > MAX_RESPONSE_BYTES
    ensures DecodeFrom(sizeOf, t, cursor, decoded) == DecodeFrom(sizeOf, s, cursor, decoded)
  {
  }

  /** Cut anywhere after its size line, the input has the same size line. */
  lemma SizeLineIsExact(t: seq<byte>, cursor: nat, k: nat)
    requires k <= |t| && cursor <= k && Find(t, CrLf, cursor).Some? && Find(t, CrLf, cursor).value + 2 <= k
    ensures Find(t[..k], CrLf, cursor) == Find(t, CrLf, cursor)
    ensures var i := Find(t, CrLf, cursor).value; t[..k][cursor..i] == t[cursor..i]
  {
    assert IsPrefix(t[..k], t);
    FindInShorter(t[..k], t, CrLf, cursor);
    PrefixSlice(t[..k], t, cursor, Find(t, CrLf, cursor).value);
  }

  lemma AtIsExact(t: seq<byte>, k: nat, i: nat)
    requires i + 2 <= k <= |t|
    ensures At(t[..k], CrLf, i) == At(t, CrLf, i)
  {
    assert IsPrefix(t[..k], t);
    PrefixSlice(t[..k], t, i, i + 2);
  }

  /** Cut right after the piece it decides, the input decides it still. */
  lemma DataIsExact(sizeOf: SizeRule, t: seq<byte>, cursor: nat, k: nat)
    requires cursor <= k <= |t| && NextPiece(sizeOf, t, cursor).Data? && NextPiece(sizeOf, t, cursor).end + 2 <= k
    ensures NextPiece(sizeOf, t[..k], cursor) == NextPiece(sizeOf, t, cursor)
  {
    SizeLineIsExact(t, cursor, k);
    AtIsExact(t, k, NextPiece(sizeOf, t, cursor).end);
  }

  lemma LastIsExact(sizeOf: SizeRule, t: seq<byte>, cursor: nat, k: nat)
    requires cursor <= k <= |t| && NextPiece(sizeOf, t, cursor) == Last(k)
    ensures NextPiece(sizeOf, t[..k], cursor) == Last(k)
  {
    SizeLineIsExact(t, cursor, k);
    var start := Find(t, CrLf, cursor).value + 2;
    AtIsExact(t, k, start);
    if !At(t, CrLf, start) {
      assert IsPrefix(t[..k], t);
      FindInShorter(t[..k], t, Blank, start);
    }
  }

  lemma DataStepIsExact(sizeOf: SizeRule, t: seq<byte>, cursor: nat, decoded: seq<byte>, start: nat, end: nat, k: nat,
                        next: nat, more: seq<byte>)
    requires cursor <= |t| && NextPiece(sizeOf, t, cursor) == Data(start, end) && next <= k <= |t|
    requires |decoded| + (end - start) <= MAX_RESPONSE_BYTES
    requires next == end + 2 && more == decoded + t[start..end]
    ensures DecodeFrom(sizeOf, t[..k], cursor, decoded) == DecodeFrom(sizeOf, t[..k], next, more)
  {
    DataIsExact(sizeOf, t, cursor, k);
    assert t[..k][start..end] == t[start..end];
    DataStepTo(sizeOf, t[..k], cursor, decoded, start, end, next, more);
  }

  /** The consumed length is exact: it lies inside the input, and the bytes up to
      it alone decode to the same. */
  lemma {:induction false} DecodingIsExact(sizeOf: SizeRule, t: seq<byte>, cursor: nat, decoded: seq<byte>,
                                           body: seq<byte>, k: nat)
    requires cursor <= |t| && DecodeFrom(sizeOf, t, cursor, decoded) == Ok(Some((body, k)))
    ensures cursor < k <= |t|
    ensures DecodeFrom(sizeOf, t[..k], cursor, decoded) == Ok(Some((body, k)))
    decreases |t| - cursor
  {
    var piece := NextPiece(sizeOf, t, cursor);
    if piece.Last? {
      LastStep(sizeOf, t, cursor, decoded, piece.end);
      LastIsExact(sizeOf, t, cursor, k);
      LastStep(sizeOf, t[..k], cursor, decoded, k);
    } else {
      var next, more := piece.end + 2, decoded + t[piece.start..piece.end];
      DataStepTo(sizeOf, t, cursor, decoded, piece.start, piece.end, next, more);
      DecodingIsExact(sizeOf, t, next, more, body, k);
      DataStepIsExact(sizeOf, t, cursor, decoded, piece.start, piece.end, k, next, more);
    }
  }

  lemma {:induction false} DecodedBodyIsBounded(sizeOf: SizeRule, t: seq<byte>, cursor: nat, decoded: seq<byte>)
    requires cursor <= |t| && |decoded| <= MAX_RESPONSE_BYTES
    ensures DecodeFrom(sizeOf, t, cursor, decoded).Ok? && DecodeFrom(sizeOf, t, cursor, decoded).value.Some? ==>
              |DecodeFrom(sizeOf, t, cursor, decoded).value.value.0| <= MAX_RESPONSE_BYTES
    decreases |t| - cursor
  {
    var piece := NextPiece(sizeOf, t, cursor);
    PieceStep(sizeOf, t, cursor, decoded, piece);
    if piece.Data? && |decoded| + (piece.end - piece.start) <= MAX_RESPONSE_BYTES {
      DecodedBodyIsBounded(sizeOf, t, piece.end + 2, decoded + t[piece.start..piece.end]);
    }
  }
}
