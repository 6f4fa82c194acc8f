/** The server-sent-events reader: a byte-at-a-time state machine with size
    limits, and the line-and-group reading of the event-stream format of section
    9.2 of the WHATWG HTML Living Standard that it must agree with. */
module EventStream {
  import opened Base
  import Utf8

  const MAX_EVENT_BYTES: nat := 1024 * 1024

  datatype EventName = State | Operation | Missed | End

  /** What the reader yields: a name it understands, and the data as bytes. */
  datatype Event = Event(name: EventName, data: seq<byte>)

  datatype ParseError = TooLarge | NotText

  /** The names "state", "operation", "missed" and "end". */
  function NameText(name: EventName): seq<byte>
  {
    match name
    case State => [115, 116, 97, 116, 101]
    case Operation => [111, 112, 101, 114, 97, 116, 105, 111, 110]
    case Missed => [109, 105, 115, 115, 101, 100]
    case End => [101, 110, 100]
  }

  function ParseName(text: seq<byte>): Option<EventName>
  {
    if text == NameText(State) then Some(State)
    else if text == NameText(Operation) then Some(Operation)
    else if text == NameText(Missed) then Some(Missed)
    else if text == NameText(End) then Some(End)
    else None
  }

  // ---- The state machine ----

  /** The event being collected. */
  datatype Draft = Draft(name: Option<seq<byte>>, data: seq<seq<byte>>, dataBytes: nat)

  const NO_DRAFT := Draft(None, [], 0)

  /** Everything the parser keeps between bytes. */
  datatype Reader = Reader(line: seq<byte>, afterCr: bool, draft: Draft)

  const FRESH := Reader([], false, NO_DRAFT)

  type Outcome = Result<(Reader, seq<Event>), ParseError>

  /** The field names "event" and "data". */
  const EVENT_FIELD: seq<byte> := [101, 118, 101, 110, 116]
  const DATA_FIELD: seq<byte> := [100, 97, 116, 97]

  const COLON: byte := 58
  const SPACE: byte := 32

  /** A line as its field name and value; one space after the colon is dropped. */
  function SplitField(line: seq<byte>): (seq<byte>, seq<byte>)
  {
    var i := IndexOf(line, COLON);
    if i == |line| then (line, [])
    else
      var value := line[i + 1..];
      (line[..i], if value != [] && value[0] == SPACE then value[1..] else value)
  }

  function JoinLines(parts: seq<seq<byte>>): (text: seq<byte>)
  {
    if parts == [] then []
    else if |parts| == 1 then parts[0]
    else parts[0] + [LF] + JoinLines(parts[1..])
  }

  /** What a blank line completes. */
  function Dispatched(d: Draft): (events: seq<Event>)
    ensures |events| <= 1
  {
    if d.data == [] || d.name.None? then []
    else
      match ParseName(d.name.value)
      case None => []
      case Some(name) => [Event(name, JoinLines(d.data))]
  }

  /** What one finished line does to the event being collected. */
  function TakeLine(d: Draft, line: seq<byte>): Result<(Draft, seq<Event>), ParseError>
  {
    if !Utf8.IsText(line) then Err(NotText)
    else if line == [] then Ok((NO_DRAFT, Dispatched(d)))
    else if line[0] == COLON then Ok((d, []))
    else
      var (field, value) := SplitField(line);
      if field == EVENT_FIELD then Ok((d.(name := Some(value)), []))
      else if field == DATA_FIELD then
        if d.dataBytes + |value| + 1 > MAX_EVENT_BYTES then Err(TooLarge)
        else Ok((d.(data := d.data + [value], dataBytes := d.dataBytes + |value| + 1), []))
      else Ok((d, []))
  }

  function TakeByte(r: Reader, b: byte): Outcome
  {
    if b == LF && r.afterCr then Ok((r.(afterCr := false), []))
    else if b == LF || b == CR then
      match TakeLine(r.draft, r.line)
      case Err(e) => Err(e)
      case Ok((d, events)) => Ok((Reader([], b == CR, d), events))
    else if |r.line| >= MAX_EVENT_BYTES then Err(TooLarge)
    else Ok((Reader(r.line + [b], false, r.draft), []))
  }

  /** An outcome with earlier events put in front. */
  function After(events: seq<Event>, o: Outcome): Outcome
  {
    match o
    case Err(e) => Err(e)
    case Ok((r, more)) => Ok((r, events + more))
  }

  lemma AfterAfter(a: seq<Event>, b: seq<Event>, o: Outcome)
    ensures After(a, After(b, o)) == After(a + b, o)
  {
    match o {
      case Err(_) =>
      case Ok((_, more)) => assert a + (b + more) == a + b + more;
    }
  }

  lemma AfterNothing(o: Outcome)
    ensures After([], o) == o
  {
    match o {
      case Err(_) =>
      case Ok((_, more)) => assert [] + more == more;
    }
  }

  function Feed(r: Reader, s: seq<byte>): Outcome
    decreases |s|
  {
    if s == [] then Ok((r, []))
    else
      match TakeByte(r, s[0])
      case Err(e) => Err(e)
      case Ok((r1, events)) => After(events, Feed(r1, s[1..]))
  }

  /** Feeding chunk after chunk, stopping at the first error. */
  function FeedChunks(r: Reader, chunks: seq<seq<byte>>): Outcome
    decreases |chunks|
  {
    if chunks == [] then Ok((r, []))
    else
      match Feed(r, chunks[0])
      case Err(e) => Err(e)
      case Ok((r1, events)) => After(events, FeedChunks(r1, chunks[1..]))
  }

  /** The parser object: the same machine, changed in place. */
  class Parser {
    var line: seq<byte>
    var afterCr: bool
    var name: Option<seq<byte>>
    var data: seq<seq<byte>>
    var dataBytes: nat

    constructor ()
      ensures View() == FRESH
    {
      line, afterCr, name, data, dataBytes := [], false, None, [], 0;
    }

    function View(): Reader
      reads this
    {
      Reader(line, afterCr, Draft(name, data, dataBytes))
    }

    method Push(chunk: seq<byte>) returns (result: Result<seq<Event>, ParseError>)
      modifies this
      ensures match Feed(old(View()), chunk)
              case Err(e) => result == Err(e)
              case Ok((r, events)) => result == Ok(events) && View() == r
    {
      var events: seq<Event> := [];
      var i := 0;
      ghost var start := View();
      assert chunk[0..] == chunk;
      AfterNothing(Feed(start, chunk));
      while i < |chunk|
        invariant 0 <= i <= |chunk|
        invariant Feed(start, chunk) == After(events, Feed(View(), chunk[i..]))
      {
        var b := chunk[i];
        ghost var before, seen, step := View(), events, [];
        assert chunk[i..][0] == b && chunk[i..][1..] == chunk[i + 1..];
        if b == LF && afterCr {
          afterCr := false;
        } else if b == LF || b == CR {
          afterCr := b == CR;
          var ended := EndLine();
          if ended.Err? {
            return Err(ended.error);
          }
          if ended.value.Some? {
            events := events + [ended.value.value];
            step := [ended.value.value];
          }
        } else {
          afterCr := false;
          if |line| >= MAX_EVENT_BYTES {
            return Err(TooLarge);
          }
          line := line + [b];
        }
        assert TakeByte(before, b) == Ok((View(), step));
        assert events == seen + step;
        AfterAfter(seen, step, Feed(View(), chunk[i + 1..]));
        i := i + 1;
      }
      assert chunk[i..] == [] && events + [] == events;
      return Ok(events);
    }

    method EndLine() returns (result: Result<Option<Event>, ParseError>)
      modifies this
      ensures afterCr == old(afterCr)
      ensures match TakeLine(old(View().draft), old(line))
              case Err(e) => result == Err(e)
              case Ok((d, events)) =>
                && View() == Reader([], afterCr, d)
                && result.Ok?
                && events == (if result.value.Some? then [result.value.value] else [])
    {
      var text := line;
      line := [];
      if !Utf8.IsText(text) {
        return Err(NotText);
      }
      if text == [] {
        var event := Dispatch();
        return Ok(event);
      }
      if text[0] == COLON {
        return Ok(None);
      }
      var (field, value) := SplitField(text);
      if field == EVENT_FIELD {
        name := Some(value);
      } else if field == DATA_FIELD {
        dataBytes := dataBytes + |value| + 1;
        if dataBytes > MAX_EVENT_BYTES {
          return Err(TooLarge);
        }
        data := data + [value];
      }
      return Ok(None);
    }

    method Dispatch() returns (event: Option<Event>)
      modifies this
      ensures View() == Reader(old(line), old(afterCr), NO_DRAFT)
      ensures Dispatched(old(View().draft)) == if event.Some? then [event.value] else []
    {
      var taken, lines := name, data;
      name, data, dataBytes := None, [], 0;
      if lines == [] || taken.None? {
        return None;
      }
      match ParseName(taken.value) {
        case None => return None;
        case Some(known) => return Some(Event(known, JoinLines(lines)));
      }
    }
  }

  // ---- Cutting the stream does not matter ----

  /** What a second push adds to a first. */
  function Continued(first: Outcome, b: seq<byte>): Outcome
  {
    match first
    case Err(e) => Err(e)
    case Ok((r, events)) => After(events, Feed(r, b))
  }

  lemma {:induction false} FeedAppend(r: Reader, a: seq<byte>, b: seq<byte>)
    ensures Feed(r, a + b) == Continued(Feed(r, a), b)
    decreases |a|
  {
    if a == [] {
      assert a + b == b;
      AfterNothing(Feed(r, b));
    } else {
      assert (a + b)[1..] == a[1..] + b;
      match TakeByte(r, a[0]) {
        case Err(_) =>
        case Ok((r1, ev)) =>
          FeedAppend(r1, a[1..], b);
          match Feed(r1, a[1..]) {
            case Err(_) =>
            case Ok((r2, ev2)) => AfterAfter(ev, ev2, Feed(r2, b));
          }
      }
    }
  }

  /** Whatever way a stream is cut into chunks, the events and the error are those of one
      push of the whole. When there is an error, the caller keeps the events of the chunks
      before the one it is in. */
  lemma {:induction false} ChunkingIsIrrelevant(r: Reader, chunks: seq<seq<byte>>)
    ensures FeedChunks(r, chunks) == Feed(r, Concat(chunks))
    ensures exists n :: EndsAt(r, chunks, n)
    decreases |chunks|
  {
    var _ := ErrorsKeepWhatWasDelivered(r, chunks);
    if chunks != [] {
      FeedAppend(r, chunks[0], Concat(chunks[1..]));
      match Feed(r, chunks[0]) {
        case Err(_) =>
        case Ok((r1, _)) => ChunkingIsIrrelevant(r1, chunks[1..]);
      }
    }
  }

  /** The events a caller has been given by the end of the stream, or by its error: a push
      that fails gives it none of its own. */
  function Delivered(r: Reader, chunks: seq<seq<byte>>): seq<Event>
    decreases |chunks|
  {
    if chunks == [] then []
    else
      match Feed(r, chunks[0])
      case Err(_) => []
      case Ok((r1, events)) => events + Delivered(r1, chunks[1..])
  }

  /** `n` chunks are read without an error, and their events are what the caller has; the
      chunk after them, if there is one, is where the error is. */
  ghost predicate EndsAt(r: Reader, chunks: seq<seq<byte>>, n: nat)
  {
    && n <= |chunks|
    && match Feed(r, Concat(chunks[..n]))
       case Err(_) => false
       case Ok((r1, events)) =>
         && Delivered(r, chunks) == events
         && if n == |chunks| then FeedChunks(r, chunks) == Ok((r1, events))
            else Feed(r1, chunks[n]).Err? && FeedChunks(r, chunks) == Feed(r1, chunks[n])
  }

  /** However a stream is cut: the events given before an error are those of the chunks
      before the one it is in, read as one; without an error, all of them. */
  lemma {:induction false} ErrorsKeepWhatWasDelivered(r: Reader, chunks: seq<seq<byte>>) returns (n: nat)
    ensures EndsAt(r, chunks, n)
    decreases |chunks|
  {
    n := 0;
    if chunks != [] && Feed(r, chunks[0]).Ok? {
      var m := ErrorsKeepWhatWasDelivered(Feed(r, chunks[0]).value.0, chunks[1..]);
      n := m + 1;
      DeliveredFirst(r, chunks, m);
    }
  }

  lemma DeliveredFirst(r: Reader, chunks: seq<seq<byte>>, n: nat)
    requires chunks != [] && Feed(r, chunks[0]).Ok? && EndsAt(Feed(r, chunks[0]).value.0, chunks[1..], n)
    ensures EndsAt(r, chunks, n + 1)
  {
    var rest := chunks[1..];
    assert chunks[..n + 1][1..] == rest[..n];
    assert Concat(chunks[..n + 1]) == chunks[0] + Concat(rest[..n]);
    FeedAppend(r, chunks[0], Concat(rest[..n]));
  }

  lemma {:induction false} ChunksBegin(chunks: seq<seq<byte>>, n: nat)
    requires n <= |chunks|
    ensures Concat(chunks[..n]) <= Concat(chunks)
  {
    if n > 0 {
      ChunksBegin(chunks[1..], n - 1);
      assert chunks[..n][1..] == chunks[1..][..n - 1];
      var a, b := Concat(chunks[1..][..n - 1]), Concat(chunks[1..]);
      assert chunks[0] + b == chunks[0] + a + b[|a|..];
    }
  }

  lemma LongerDeliversMore(r: Reader, a: seq<byte>, b: seq<byte>)
    requires a <= b && Feed(r, a).Ok? && Feed(r, b).Ok?
    ensures Feed(r, a).value.1 <= Feed(r, b).value.1
  {
    assert b == a + b[|a|..];
    FeedAppend(r, a, b[|a|..]);
  }

  /** Two ways to cut one stream give the caller the same events, as far as the one with
      fewer goes; all the same, if there is no error. */
  lemma AnyTwoCutsDeliverAlike(r: Reader, a: seq<seq<byte>>, b: seq<seq<byte>>)
    requires Concat(a) == Concat(b)
    ensures Delivered(r, a) <= Delivered(r, b) || Delivered(r, b) <= Delivered(r, a)
    ensures Feed(r, Concat(a)).Ok? ==> Delivered(r, a) == Delivered(r, b)
  {
    var m := ErrorsKeepWhatWasDelivered(r, a);
    var n := ErrorsKeepWhatWasDelivered(r, b);
    var x, y := Concat(a[..m]), Concat(b[..n]);
    ChunksBegin(a, m);
    ChunksBegin(b, n);
    if |x| <= |y| {
      assert x <= y;
      LongerDeliversMore(r, x, y);
    } else {
      assert y <= x;
      LongerDeliversMore(r, y, x);
    }
    ChunkingIsIrrelevant(r, a);
    ChunkingIsIrrelevant(r, b);
  }

  // ---- The format read as lines, then grouped ----

  predicate IsBreak(b: byte)
  {
    b == CR || b == LF
  }

  /** Where the first line ends: the index of its CR or LF, or the length. */
  function FirstBreak(s: seq<byte>, from: nat := 0): (i: nat)
    requires from <= |s|
    ensures from <= i <= |s| && (i < |s| ==> IsBreak(s[i]))
    ensures forall j :: from <= j < i ==> !IsBreak(s[j])
    decreases |s| - from
  {
    if from == |s| || IsBreak(s[from]) then from else FirstBreak(s, from + 1)
  }

  /** How much of `s` the first line and its terminator (CRLF, CR or LF) take. */
  function LineSpan(s: seq<byte>): (n: nat)
    requires FirstBreak(s) < |s|
    ensures 0 < n <= |s|
  {
    var i := FirstBreak(s);
    if s[i] == CR && i + 1 < |s| && s[i + 1] == LF then i + 2 else i + 1
  }

  /** The finished lines of `s`. */
  function Lines(s: seq<byte>): seq<seq<byte>>
  {
    var i := FirstBreak(s);
    if i == |s| then [] else [s[..i]] + Lines(s[LineSpan(s)..])
  }

  /** What follows the last line terminator of `s`. */
  function Unfinished(s: seq<byte>): seq<byte>
  {
    if FirstBreak(s) == |s| then s else Unfinished(s[LineSpan(s)..])
  }

  /** What one line does to the event being collected. */
  type LineRule = (Draft, seq<byte>) -> Result<(Draft, seq<Event>), ParseError>

  /** Lines grouped into events by `rule`, each line within the limit. */
  function Group(rule: LineRule, d: Draft, lines: seq<seq<byte>>): Result<(Draft, seq<Event>), ParseError>
    decreases |lines|
  {
    if lines == [] then Ok((d, []))
    else if |lines[0]| > MAX_EVENT_BYTES then Err(TooLarge)
    else
      match rule(d, lines[0])
      case Err(e) => Err(e)
      case Ok((d1, events)) =>
        match Group(rule, d1, lines[1..])
        case Err(e) => Err(e)
        case Ok((d2, more)) => Ok((d2, events + more))
  }

  predicate EndsInCr(s: seq<byte>)
  {
    s != [] && s[|s| - 1] == CR
  }

  /** The whole reading of `s`; `cr` says whether its last byte is a CR. */
  function Grouped(d: Draft, s: seq<byte>, cr: bool): Outcome
  {
    match Group(TakeLine, d, Lines(s))
    case Err(e) => Err(e)
    case Ok((d', events)) =>
      if |Unfinished(s)| > MAX_EVENT_BYTES then Err(TooLarge)
      else Ok((Reader(Unfinished(s), cr, d'), events))
  }

  /** Bytes of one line only lengthen it. */
  lemma {:induction false} FeedPlain(r: Reader, s: seq<byte>)
    requires forall j :: 0 <= j < |s| ==> !IsBreak(s[j])
    requires |r.line| <= MAX_EVENT_BYTES && s != []
    ensures Feed(r, s) ==
            if |r.line| + |s| > MAX_EVENT_BYTES then Err(TooLarge)
            else Ok((Reader(r.line + s, false, r.draft), []))
    decreases |s|
  {
    if |r.line| < MAX_EVENT_BYTES {
      var r1 := Reader(r.line + [s[0]], false, r.draft);
      assert TakeByte(r, s[0]) == Ok((r1, []));
      AfterNothing(Feed(r1, s[1..]));
      if |s| == 1 {
        assert r.line + [s[0]] == r.line + s && s[1..] == [];
      } else {
        FeedPlain(r1, s[1..]);
        assert r.line + [s[0]] + s[1..] == r.line + s;
      }
    }
  }

  /** A line's terminator, fed to a reader holding that line. */
  lemma FeedTerminator(r: Reader, t: seq<byte>)
    requires t == [CR] || t == [LF] || t == [CR, LF]
    requires t == [LF] ==> !r.afterCr
    ensures Feed(r, t) ==
            match TakeLine(r.draft, r.line)
            case Err(e) => Err(e)
            case Ok((d, ev)) => Ok((Reader([], t == [CR], d), ev))
  {
    match TakeLine(r.draft, r.line) {
      case Err(_) =>
      case Ok((d, ev)) =>
        var r1 := Reader([], t[0] == CR, d);
        assert TakeByte(r, t[0]) == Ok((r1, ev));
        if t == [CR, LF] {
          assert t[1..] == [LF] && [LF][1..] == [];
          assert TakeByte(r1, LF) == Ok((Reader([], false, d), []));
          assert Feed(r1, [LF]) == After([], Ok((Reader([], false, d), [])));
          AfterNothing(Feed(Reader([], false, d), []));
        } else {
          assert t[1..] == [];
        }
        assert ev + [] == ev;
    }
  }

  /** Feeding the bytes of a line, up to its terminator. */
  lemma FeedLineBytes(d: Draft, line: seq<byte>)
    requires forall i :: 0 <= i < |line| ==> !IsBreak(line[i])
    ensures Feed(Reader([], false, d), line) ==
            if |line| <= MAX_EVENT_BYTES then Ok((Reader(line, false, d), [])) else Err(TooLarge)
  {
    if line != [] {
      FeedPlain(Reader([], false, d), line);
      assert [] + line == line;
    }
  }

  /** Feeding one whole line and its terminator. */
  lemma FeedLine(d: Draft, s: seq<byte>)
    requires FirstBreak(s) < |s|
    ensures Feed(Reader([], false, d), s[..LineSpan(s)]) == LineFed(d, s)
  {
    var i, n := FirstBreak(s), LineSpan(s);
    var start := Reader([], false, d);
    var held := Reader(s[..i], false, d);
    assert s[..n] == s[..i] + s[i..n];
    FeedAppend(start, s[..i], s[i..n]);
    FeedLineBytes(d, s[..i]);
    if i <= MAX_EVENT_BYTES {
      FeedTerminator(held, s[i..n]);
      AfterNothing(Feed(held, s[i..n]));
    }
  }

  function LineFed(d: Draft, s: seq<byte>): Outcome
    requires FirstBreak(s) < |s|
  {
    var i := FirstBreak(s);
    if i > MAX_EVENT_BYTES then Err(TooLarge)
    else
      match TakeLine(d, s[..i])
      case Err(e) => Err(e)
      case Ok((d', ev)) => Ok((Reader([], LineSpan(s) == i + 1 && s[i] == CR, d'), ev))
  }

  /** A swallowed LF apart, having just seen a CR makes no difference. */
  lemma AfterCrForgotten(d: Draft, s: seq<byte>)
    requires s != [] && s[0] != LF
    ensures Feed(Reader([], true, d), s) == Feed(Reader([], false, d), s)
  {
  }

  lemma LinesStep(s: seq<byte>)
    requires FirstBreak(s) < |s|
    ensures Lines(s) != [] && Lines(s)[0] == s[..FirstBreak(s)]
    ensures Lines(s)[1..] == Lines(s[LineSpan(s)..])
    ensures Unfinished(s) == Unfinished(s[LineSpan(s)..])
  {
  }

  lemma EndsInCrStep(s: seq<byte>)
    requires FirstBreak(s) < |s|
    ensures var i, n := FirstBreak(s), LineSpan(s);
            EndsInCr(s) == if n == |s| then n == i + 1 && s[i] == CR else EndsInCr(s[n..])
  {
  }

  /** One line of `Grouped`. */
  lemma GroupedLine(d: Draft, s: seq<byte>, cr: bool, rest: seq<byte>)
    requires FirstBreak(s) < |s| && rest == s[LineSpan(s)..]
    ensures LineFed(d, s).Err? ==> Grouped(d, s, cr) == LineFed(d, s)
    ensures LineFed(d, s).Ok? ==>
              Grouped(d, s, cr) == After(LineFed(d, s).value.1, Grouped(LineFed(d, s).value.0.draft, rest, cr))
  {
    LinesStep(s);
    GroupStep(d, Lines(s));
  }

  /** One line of `Group`. */
  lemma GroupStep(d: Draft, lines: seq<seq<byte>>)
    requires lines != []
    ensures Group(TakeLine, d, lines) ==
            if |lines[0]| > MAX_EVENT_BYTES then Err(TooLarge)
            else
              match TakeLine(d, lines[0])
              case Err(e) => Err(e)
              case Ok((d1, events)) =>
                match Group(TakeLine, d1, lines[1..])
                case Err(e) => Err(e)
                case Ok((d2, more)) => Ok((d2, events + more))
  {
  }

  lemma {:induction false} FeedIsGrouped(d: Draft, s: seq<byte>)
    ensures Feed(Reader([], false, d), s) == Grouped(d, s, EndsInCr(s))
    decreases |s|
  {
    var start := Reader([], false, d);
    if FirstBreak(s) == |s| {
      assert [] + s == s;
      if s != [] {
        FeedPlain(start, s);
      }
    } else {
      var n := LineSpan(s);
      var rest := s[n..];
      assert s == s[..n] + rest;
      FeedLine(d, s);
      FeedAppend(start, s[..n], rest);
      EndsInCrStep(s);
      GroupedLine(d, s, EndsInCr(s), rest);
      if LineFed(d, s).Ok? {
        var (r, ev) := LineFed(d, s).value;
        if rest == [] {
          assert Grouped(r.draft, rest, EndsInCr(s)) == Ok((r, []));
        } else {
          FeedIsGrouped(r.draft, rest);
          assert rest[0] == s[n];
          if r.afterCr {
            AfterCrForgotten(r.draft, rest);
          }
        }
      }
    }
  }

  /** The machine is the format: for every byte stream and every way of cutting it,
      what the parser returns is the stream's lines, split at CRLF, CR or LF,
      grouped into events. */
  lemma ParserIsTheFormat(s: seq<byte>, chunks: seq<seq<byte>>)
    requires Concat(chunks) == s
    ensures FeedChunks(FRESH, chunks) == Feed(FRESH, s) == Grouped(NO_DRAFT, s, EndsInCr(s))
  {
    ChunkingIsIrrelevant(FRESH, chunks);
    FeedIsGrouped(NO_DRAFT, s);
  }

  // ---- What every state of the parser keeps ----

  /** The data collected, each value with the byte that joins or ends it. */
  function Weight(parts: seq<seq<byte>>): nat
  {
    if parts == [] then 0 else Weight(parts[..|parts| - 1]) + |parts[|parts| - 1]| + 1
  }

  predicate Bounded(r: Reader)
  {
    && |r.line| <= MAX_EVENT_BYTES
    && r.draft.dataBytes == Weight(r.draft.data) <= MAX_EVENT_BYTES
  }

  lemma {:induction false} WeightFront(parts: seq<seq<byte>>)
    requires parts != []
    ensures Weight(parts) == |parts[0]| + 1 + Weight(parts[1..])
    decreases |parts|
  {
    if |parts| > 1 {
      WeightFront(parts[..|parts| - 1]);
      assert parts[..|parts| - 1][1..] == parts[1..][..|parts[1..]| - 1];
    }
  }

  lemma {:induction false} JoinedLength(parts: seq<seq<byte>>)
    requires parts != []
    ensures |JoinLines(parts)| + 1 == Weight(parts)
    decreases |parts|
  {
    WeightFront(parts);
    if |parts| > 1 {
      JoinedLength(parts[1..]);
    } else {
      assert parts[1..] == [];
    }
  }

  /** What a line does keeps the count of the data exact and within the limit. */
  lemma LineKeepsBounds(d: Draft, line: seq<byte>, after: Draft, events: seq<Event>)
    requires d.dataBytes == Weight(d.data) && d.dataBytes <= MAX_EVENT_BYTES && TakeLine(d, line) == Ok((after, events))
    ensures after.dataBytes == Weight(after.data) && after.dataBytes <= MAX_EVENT_BYTES
    ensures forall e :: e in events ==> |e.data| < MAX_EVENT_BYTES
  {
    if d.data != [] {
      JoinedLength(d.data);
    }
    var (_, value) := SplitField(line);
    var more := d.data + [value];
    assert more[..|more| - 1] == d.data;
  }

  lemma ByteKeepsBounds(r: Reader, b: byte)
    requires Bounded(r) && TakeByte(r, b).Ok?
    ensures Bounded(TakeByte(r, b).value.0)
    ensures forall e :: e in TakeByte(r, b).value.1 ==> |e.data| < MAX_EVENT_BYTES
  {
    if IsBreak(b) && !(b == LF && r.afterCr) {
      var (next, events) := TakeLine(r.draft, r.line).value;
      LineKeepsBounds(r.draft, r.line, next, events);
    }
  }

  /** In every state a stream without error can reach, the line and the data held
      are within the limit and counted exactly, and so is every event returned. */
  lemma {:induction false} StaysBounded(r: Reader, s: seq<byte>)
    requires Bounded(r) && Feed(r, s).Ok?
    ensures Bounded(Feed(r, s).value.0)
    ensures forall e :: e in Feed(r, s).value.1 ==> |e.data| < MAX_EVENT_BYTES
    decreases |s|
  {
    if s != [] {
      ByteKeepsBounds(r, s[0]);
      StaysBounded(TakeByte(r, s[0]).value.0, s[1..]);
    }
  }

  // ---- A written stream reads back ----

  datatype Terminator = Lf | Cr | CrLf {
    function Bytes(): seq<byte>
    {
      match this case Lf => [LF] case Cr => [CR] case CrLf => [CR, LF]
    }
  }

  /** How a field is written: its value after a colon and a space, after a colon alone,
      or left out with the colon. */
  datatype Spelling = Spaced | Tight | Bare

  /** A line of an event as a server may write it: any field, known or not, or a comment. */
  datatype Piece = Field(name: seq<byte>, value: seq<byte>, how: Spelling) | Comment(text: seq<byte>)

  predicate HasNoBreak(s: seq<byte>)
  {
    forall i :: 0 <= i < |s| ==> !IsBreak(s[i])
  }

  predicate IsLine(s: seq<byte>)
  {
    Utf8.IsText(s) && HasNoBreak(s)
  }

  function PieceLine(p: Piece): seq<byte>
  {
    match p
    case Comment(text) => [COLON] + text
    case Field(name, value, Spaced) => name + [COLON, SPACE] + value
    case Field(name, value, Tight) => name + [COLON] + value
    case Field(name, _, Bare) => name
  }

  predicate Writable(p: Piece)
  {
    && |PieceLine(p)| <= MAX_EVENT_BYTES
    && match p
       case Comment(text) => IsLine(text)
       case Field(name, value, how) =>
         && name != [] && IsLine(name) && COLON !in name && IsLine(value)
         && (how.Tight? ==> value == [] || value[0] != SPACE) && (how.Bare? ==> value == [])
  }

  predicate AllWritable(pieces: seq<Piece>)
  {
    (forall i :: 0 <= i < |pieces| ==> Writable(pieces[i])) && Weight(DataOf(pieces)) <= MAX_EVENT_BYTES
  }

  predicate EachWritable(items: seq<seq<Piece>>)
  {
    forall i :: 0 <= i < |items| ==> AllWritable(items[i])
  }

  function PieceLines(pieces: seq<Piece>): seq<seq<byte>>
  {
    if pieces == [] then []
    else PieceLines(pieces[..|pieces| - 1]) + [PieceLine(pieces[|pieces| - 1])]
  }

  predicate IsField(p: Piece, name: seq<byte>)
  {
    p.Field? && p.name == name
  }

  /** An event's name: the last one its lines give. */
  function NameOf(pieces: seq<Piece>): Option<seq<byte>>
  {
    if pieces == [] then None
    else if IsField(pieces[|pieces| - 1], EVENT_FIELD) then Some(pieces[|pieces| - 1].value)
    else NameOf(pieces[..|pieces| - 1])
  }

  /** An event's data: every data field's value, in order. */
  function DataOf(pieces: seq<Piece>): seq<seq<byte>>
  {
    if pieces == [] then []
    else
      DataOf(pieces[..|pieces| - 1])
      + if IsField(pieces[|pieces| - 1], DATA_FIELD) then [pieces[|pieces| - 1].value] else []
  }

  /** What the lines of one event come to: the event, if they give data and, last, the
      name `name`; no event otherwise. */
  ghost predicate Completes(pieces: seq<Piece>, events: seq<Event>)
  {
    if DataOf(pieces) != [] && (exists name :: NameOf(pieces) == Some(NameText(name)))
    then exists name :: NameOf(pieces) == Some(NameText(name)) && events == [Event(name, JoinLines(DataOf(pieces)))]
    else events == []
  }

  /** The lines of whole events, a blank one after each, and of one not yet ended. */
  function AllLines(items: seq<seq<Piece>>, rest: seq<Piece>): seq<seq<byte>>
  {
    if items == [] then PieceLines(rest) else PieceLines(items[0]) + [[]] + AllLines(items[1..], rest)
  }

  function WriteLines(lines: seq<seq<byte>>, t: Terminator): seq<byte>
  {
    if lines == [] then [] else lines[0] + t.Bytes() + WriteLines(lines[1..], t)
  }

  /** Lines written with one kind of terminator split back into themselves. */
  lemma {:induction false} WrittenLinesSplit(lines: seq<seq<byte>>, t: Terminator)
    requires OneLineEach(lines)
    ensures Lines(WriteLines(lines, t)) == lines && Unfinished(WriteLines(lines, t)) == []
    decreases |lines|
  {
    if lines != [] {
      var s := WriteLines(lines, t);
      FirstWrittenLine(lines, t);
      WrittenLinesSplit(lines[1..], t);
      LinesStep(s);
      assert Lines(s) == [Lines(s)[0]] + Lines(s)[1..];
    }
  }

  lemma FirstBreakAfter(line: seq<byte>, tail: seq<byte>)
    requires tail != [] && IsBreak(tail[0])
    requires forall j :: 0 <= j < |line| ==> !IsBreak(line[j])
    ensures FirstBreak(line + tail) == |line|
  {
    var s := line + tail;
    assert s[|line|] == tail[0] && forall j :: 0 <= j < |line| ==> s[j] == line[j];
  }

  lemma NextByteIsNoLf(lines: seq<seq<byte>>)
    requires OneLineEach(lines) && lines != []
    ensures WriteLines(lines, Cr) != [] && WriteLines(lines, Cr)[0] != LF
  {
    assert (lines[0] + Cr.Bytes())[0] != LF;
  }

  lemma SpanOfLine(line: seq<byte>, t: Terminator, more: seq<byte>)
    requires forall j :: 0 <= j < |line| ==> !IsBreak(line[j])
    requires t == Cr && more != [] ==> more[0] != LF
    ensures var s := line + t.Bytes() + more;
            && FirstBreak(s) == |line| < |s| && s[..|line|] == line
            && LineSpan(s) == |line| + |t.Bytes()| && s[LineSpan(s)..] == more
  {
    var s := line + t.Bytes() + more;
    assert s == line + (t.Bytes() + more);
    FirstBreakAfter(line, t.Bytes() + more);
  }

  lemma FirstWrittenLine(lines: seq<seq<byte>>, t: Terminator)
    requires OneLineEach(lines) && lines != []
    ensures var s := WriteLines(lines, t);
            && FirstBreak(s) == |lines[0]| < |s| && s[..|lines[0]|] == lines[0]
            && s[LineSpan(s)..] == WriteLines(lines[1..], t)
  {
    if t == Cr && lines[1..] != [] {
      NextByteIsNoLf(lines[1..]);
    }
    SpanOfLine(lines[0], t, WriteLines(lines[1..], t));
  }

  lemma GroupFirst(rule: LineRule, d: Draft, lines: seq<seq<byte>>, d2: Draft, events: seq<Event>)
    returns (d1: Draft, first: seq<Event>, more: seq<Event>)
    requires lines != [] && Group(rule, d, lines) == Ok((d2, events))
    ensures |lines[0]| <= MAX_EVENT_BYTES && rule(d, lines[0]) == Ok((d1, first))
    ensures Group(rule, d1, lines[1..]) == Ok((d2, more)) && events == first + more
  {
    d1, first := rule(d, lines[0]).value.0, rule(d, lines[0]).value.1;
    more := Group(rule, d1, lines[1..]).value.1;
  }

  lemma {:induction false} GroupAppend(rule: LineRule, d: Draft, a: seq<seq<byte>>, d1: Draft, ev1: seq<Event>,
                                       b: seq<seq<byte>>, d2: Draft, ev2: seq<Event>)
    requires Group(rule, d, a) == Ok((d1, ev1)) && Group(rule, d1, b) == Ok((d2, ev2))
    ensures Group(rule, d, a + b) == Ok((d2, ev1 + ev2))
    decreases |a|
  {
    if a == [] {
      assert a + b == b && ev1 + ev2 == ev2;
    } else {
      var d0, first, more := GroupFirst(rule, d, a, d1, ev1);
      GroupAppend(rule, d0, a[1..], d1, more, b, d2, ev2);
      GroupCons(rule, d, a[0], a[1..] + b, d0, first, d2, more + ev2);
      assert a + b == [a[0]] + (a[1..] + b);
      assert first + (more + ev2) == ev1 + ev2;
    }
  }

  lemma GroupCons(rule: LineRule, d: Draft, line: seq<byte>, lines: seq<seq<byte>>, d1: Draft, ev1: seq<Event>, d2: Draft,
                  ev2: seq<Event>)
    requires |line| <= MAX_EVENT_BYTES && rule(d, line) == Ok((d1, ev1)) && Group(rule, d1, lines) == Ok((d2, ev2))
    ensures Group(rule, d, [line] + lines) == Ok((d2, ev1 + ev2))
  {
    assert ([line] + lines)[1..] == lines;
  }

  // ---- How a field is read ----

  lemma FirstColon(name: seq<byte>, tail: seq<byte>)
    requires COLON !in name && tail != [] && tail[0] == COLON
    ensures IndexOf(name + tail, COLON) == |name|
    ensures (name + tail)[..|name|] == name && (name + tail)[|name| + 1..] == tail[1..]
  {
    var line := name + tail;
    assert line[|name|] == COLON && forall i :: 0 <= i < |name| ==> line[i] == name[i];
  }

  /** A value is what follows the colon, but for one space there; it is empty without a
      colon. So a value is read as it was meant, written with a space or, unless it begins
      with one itself, without. */
  lemma FieldsAreReadAsWritten(name: seq<byte>, value: seq<byte>)
    requires COLON !in name
    ensures SplitField(name + [COLON, SPACE] + value) == (name, value)
    ensures SplitField(name + [COLON] + value) == (name, value) <==> value == [] || value[0] != SPACE
    ensures SplitField(name) == (name, [])
  {
    FirstColon(name, [COLON] + value);
    assert name + ([COLON] + value) == name + [COLON] + value && ([COLON] + value)[1..] == value;
    FirstColon(name, [COLON, SPACE] + value);
    assert name + ([COLON, SPACE] + value) == name + [COLON, SPACE] + value;
    assert ([COLON, SPACE] + value)[1..] == [SPACE] + value && ([SPACE] + value)[1..] == value;
  }

  lemma FieldIsText(name: seq<byte>, mark: seq<byte>, value: seq<byte>)
    requires Utf8.IsText(name) && Utf8.IsText(value) && forall i :: 0 <= i < |mark| ==> mark[i] < 0x80
    ensures Utf8.IsText(name + mark + value)
  {
    Utf8.AsciiPrefix(mark, value);
    Utf8.TextsJoin(name, mark + value);
    assert name + (mark + value) == name + mark + value;
  }

  lemma PieceIsText(p: Piece)
    requires Writable(p)
    ensures Utf8.IsText(PieceLine(p))
  {
    if p.Comment? {
      Utf8.AsciiPrefix([COLON], p.text);
    } else {
      FieldIsText(p.name, [COLON, SPACE], p.value);
      FieldIsText(p.name, [COLON], p.value);
    }
  }

  /** What a line leaves of the event being collected: a name, one more value, or what was
      there, for a field that is neither and for a comment. */
  function WithPiece(d: Draft, p: Piece): Draft
  {
    if IsField(p, EVENT_FIELD) then d.(name := Some(p.value))
    else if IsField(p, DATA_FIELD) then d.(data := d.data + [p.value], dataBytes := d.dataBytes + |p.value| + 1)
    else d
  }

  /** A line that is neither blank nor a comment, and what it splits into. */
  ghost predicate IsFieldLine(line: seq<byte>, name: seq<byte>, value: seq<byte>)
  {
    line != [] && line[0] != COLON && Utf8.IsText(line) && SplitField(line) == (name, value)
  }

  lemma FieldLineIsTaken(d: Draft, line: seq<byte>, name: seq<byte>, value: seq<byte>, how: Spelling)
    requires IsFieldLine(line, name, value)
    requires name == DATA_FIELD ==> d.dataBytes + |value| + 1 <= MAX_EVENT_BYTES
    ensures TakeLine(d, line) == Ok((WithPiece(d, Field(name, value, how)), []))
  {
    WordsDiffer();
  }

  lemma WrittenIsFieldLine(p: Piece)
    requires Writable(p) && p.Field?
    ensures IsFieldLine(PieceLine(p), p.name, p.value)
  {
    PieceIsText(p);
    FieldsAreReadAsWritten(p.name, p.value);
    assert PieceLine(p)[0] == p.name[0];
    assert p.name[0] in p.name;
  }

  lemma LinesAreTakenAsWritten(d: Draft, p: Piece)
    requires Writable(p) && (IsField(p, DATA_FIELD) ==> d.dataBytes + |p.value| + 1 <= MAX_EVENT_BYTES)
    ensures TakeLine(d, PieceLine(p)) == Ok((WithPiece(d, p), []))
  {
    if p.Field? {
      WrittenIsFieldLine(p);
      FieldLineIsTaken(d, PieceLine(p), p.name, p.value, p.how);
    } else {
      PieceIsText(p);
    }
  }

  lemma GroupOne(rule: LineRule, d: Draft, line: seq<byte>, d': Draft, events: seq<Event>)
    requires |line| <= MAX_EVENT_BYTES && rule(d, line) == Ok((d', events))
    ensures Group(rule, d, [line]) == Ok((d', events))
  {
    assert [line][1..] == [] && events + [] == events;
  }

  /** What lines of one event collect. */
  function DraftOf(pieces: seq<Piece>): Draft
  {
    Draft(NameOf(pieces), DataOf(pieces), Weight(DataOf(pieces)))
  }

  lemma WeightGrows(data: seq<seq<byte>>, value: seq<byte>)
    ensures Weight(data + [value]) == Weight(data) + |value| + 1
  {
    assert (data + [value])[..|data|] == data;
  }

  lemma NameStep(pieces: seq<Piece>)
    requires pieces != []
    ensures var n := |pieces| - 1;
            NameOf(pieces) == if IsField(pieces[n], EVENT_FIELD) then Some(pieces[n].value) else NameOf(pieces[..n])
  {
  }

  lemma DataStep(pieces: seq<Piece>)
    requires pieces != []
    ensures var n := |pieces| - 1;
            DataOf(pieces) ==
            if IsField(pieces[n], DATA_FIELD) then DataOf(pieces[..n]) + [pieces[n].value] else DataOf(pieces[..n])
  {
  }

  lemma DraftStep(pieces: seq<Piece>)
    requires pieces != []
    ensures var n := |pieces| - 1;
            && DraftOf(pieces) == WithPiece(DraftOf(pieces[..n]), pieces[n])
            && Weight(DataOf(pieces[..n])) <= Weight(DataOf(pieces))
  {
    var n := |pieces| - 1;
    WordsDiffer();
    NameStep(pieces);
    DataStep(pieces);
    WeightGrows(DataOf(pieces[..n]), if pieces[n].Field? then pieces[n].value else []);
  }

  lemma WordsDiffer()
    ensures EVENT_FIELD != DATA_FIELD
  {
    assert |EVENT_FIELD| != |DATA_FIELD|;
  }

  lemma {:induction false} GroupPieces(pieces: seq<Piece>)
    requires AllWritable(pieces)
    ensures Group(TakeLine, NO_DRAFT, PieceLines(pieces)) == Ok((DraftOf(pieces), []))
    decreases |pieces|
  {
    if pieces != [] {
      var n := |pieces| - 1;
      var front, last := pieces[..n], pieces[n];
      DraftStep(pieces);
      GroupPieces(front);
      LinesAreTakenAsWritten(DraftOf(front), last);
      GroupOne(TakeLine, DraftOf(front), PieceLine(last), DraftOf(pieces), []);
      GroupAppend(TakeLine, NO_DRAFT, PieceLines(front), DraftOf(front), [], [PieceLine(last)], DraftOf(pieces), []);
    }
  }

  /** The words of the protocol. */
  lemma WordsAreSpelled()
    ensures NameText(State) == Ascii("state") && NameText(Operation) == Ascii("operation")
    ensures NameText(Missed) == Ascii("missed") && NameText(End) == Ascii("end")
    ensures EVENT_FIELD == Ascii("event") && DATA_FIELD == Ascii("data")
  {
  }

  /** A name is understood exactly when it is one of those words. */
  lemma NamesAreExact(word: seq<byte>, name: EventName)
    ensures ParseName(word) == Some(name) <==> word == NameText(name)
  {
    assert NameText(State)[0] == 115 && NameText(Operation)[0] == 111;
    assert NameText(Missed)[0] == 109 && NameText(End)[0] == 101;
  }

  lemma DispatchedCompletes(pieces: seq<Piece>)
    ensures Completes(pieces, Dispatched(DraftOf(pieces)))
  {
    forall name | NameOf(pieces).Some?
      ensures ParseName(NameOf(pieces).value) == Some(name) <==> NameOf(pieces).value == NameText(name)
    {
      NamesAreExact(NameOf(pieces).value, name);
    }
  }

  /** An event's lines, ended by the blank one. */
  lemma GroupItem(pieces: seq<Piece>)
    requires AllWritable(pieces)
    ensures Group(TakeLine, NO_DRAFT, PieceLines(pieces) + [[]]) == Ok((NO_DRAFT, Dispatched(DraftOf(pieces))))
  {
    var d := DraftOf(pieces);
    GroupPieces(pieces);
    GroupOne(TakeLine, d, [], NO_DRAFT, Dispatched(d));
    GroupAppend(TakeLine, NO_DRAFT, PieceLines(pieces), d, [], [[]], NO_DRAFT, Dispatched(d));
    assert [] + Dispatched(d) == Dispatched(d);
  }

  /** What each whole event comes to, in order. */
  ghost predicate AllComplete(items: seq<seq<Piece>>, events: seq<Event>)
  {
    exists parts: seq<seq<Event>> ::
      |parts| == |items| && Concat(parts) == events && forall i :: 0 <= i < |items| ==> Completes(items[i], parts[i])
  }

  lemma {:induction false} GroupItems(items: seq<seq<Piece>>, rest: seq<Piece>) returns (parts: seq<seq<Event>>)
    requires EachWritable(items) && AllWritable(rest)
    ensures Group(TakeLine, NO_DRAFT, AllLines(items, rest)) == Ok((DraftOf(rest), Concat(parts)))
    ensures |parts| == |items| && forall i :: 0 <= i < |items| ==> Completes(items[i], parts[i])
    decreases |items|
  {
    if items == [] {
      GroupPieces(rest);
      parts := [];
    } else {
      var first := Dispatched(DraftOf(items[0]));
      GroupItem(items[0]);
      DispatchedCompletes(items[0]);
      var more := GroupItems(items[1..], rest);
      parts := [first] + more;
      assert parts[1..] == more;
      GroupAppend(TakeLine, NO_DRAFT, PieceLines(items[0]) + [[]], NO_DRAFT, first, AllLines(items[1..], rest),
                  DraftOf(rest), Concat(more));
    }
  }

  predicate OneLineEach(lines: seq<seq<byte>>)
  {
    forall i :: 0 <= i < |lines| ==> HasNoBreak(lines[i])
  }

  lemma {:induction false} PiecesHaveNoBreak(pieces: seq<Piece>)
    requires forall i :: 0 <= i < |pieces| ==> Writable(pieces[i])
    ensures OneLineEach(PieceLines(pieces))
    decreases |pieces|
  {
    if pieces != [] {
      var n := |pieces| - 1;
      PiecesHaveNoBreak(pieces[..n]);
      assert Writable(pieces[n]);
      assert OneLineEach([PieceLine(pieces[n])]);
    }
  }

  lemma {:induction false} LinesHaveNoBreak(items: seq<seq<Piece>>, rest: seq<Piece>)
    requires EachWritable(items) && AllWritable(rest)
    ensures OneLineEach(AllLines(items, rest))
    decreases |items|
  {
    if items == [] {
      PiecesHaveNoBreak(rest);
    } else {
      assert AllWritable(items[0]);
      PiecesHaveNoBreak(items[0]);
      LinesHaveNoBreak(items[1..], rest);
    }
  }

  /** The round trip: any events, whole and one not yet ended, with fields of any name
      written in any way and comments among them, with any one terminator and cut
      anywhere, read back as exactly the events that have data and a known name, each
      with its last name and all its data. */
  lemma WrittenStreamReadsBack(items: seq<seq<Piece>>, rest: seq<Piece>, t: Terminator, chunks: seq<seq<byte>>)
    requires EachWritable(items) && AllWritable(rest)
    requires Concat(chunks) == WriteLines(AllLines(items, rest), t)
    ensures FeedChunks(FRESH, chunks).Ok?
    ensures AllComplete(items, FeedChunks(FRESH, chunks).value.1)
    ensures FeedChunks(FRESH, chunks).value.0.draft == DraftOf(rest)
  {
    var s := WriteLines(AllLines(items, rest), t);
    ParserIsTheFormat(s, chunks);
    LinesHaveNoBreak(items, rest);
    WrittenLinesSplit(AllLines(items, rest), t);
    var parts := GroupItems(items, rest);
    assert Concat(parts) == FeedChunks(FRESH, chunks).value.1;
  }

  // ---- Every stream the parser accepts is a written one ----

  lemma PartsHaveNoBreak(a: seq<byte>, b: seq<byte>)
    requires HasNoBreak(a + b)
    ensures HasNoBreak(a) && HasNoBreak(b)
  {
    assert forall i :: 0 <= i < |a| ==> a[i] == (a + b)[i];
    assert forall i :: 0 <= i < |b| ==> b[i] == (a + b)[|a| + i];
  }

  lemma PartsAreLines(a: seq<byte>, mark: byte, b: seq<byte>)
    requires IsLine(a + [mark] + b) && mark < 0x80
    ensures IsLine(a) && IsLine(b)
  {
    var tail := [mark] + b;
    assert a + [mark] + b == a + tail;
    Utf8.TextSplits(a, tail);
    Utf8.AsciiPrefix([mark], b);
    PartsHaveNoBreak(a, tail);
    PartsHaveNoBreak([mark], b);
  }

  lemma SpacedPiece(line: seq<byte>, name: seq<byte>, value: seq<byte>) returns (p: Piece)
    requires line == name + [COLON] + ([SPACE] + value) && |line| <= MAX_EVENT_BYTES
    requires name != [] && COLON !in name && IsLine(name) && IsLine([SPACE] + value)
    ensures Writable(p) && PieceLine(p) == line
  {
    p := Field(name, value, Spaced);
    assert name + [COLON, SPACE] + value == line;
    assert [] + [SPACE] + value == [SPACE] + value;
    PartsAreLines([], SPACE, value);
  }

  lemma TailIsAPiece(line: seq<byte>, name: seq<byte>, after: seq<byte>) returns (p: Piece)
    requires line == name + [COLON] + after && |line| <= MAX_EVENT_BYTES
    requires COLON !in name && IsLine(name) && IsLine(after)
    ensures Writable(p) && PieceLine(p) == line
  {
    if name == [] {
      p := Comment(after);
    } else if after != [] && after[0] == SPACE {
      assert after == [SPACE] + after[1..];
      p := SpacedPiece(line, name, after[1..]);
    } else {
      p := Field(name, after, Tight);
    }
  }

  /** Every line of text, but the blank one, is a field or a comment as written. */
  lemma LineIsAPiece(line: seq<byte>) returns (p: Piece)
    requires line != [] && IsLine(line) && |line| <= MAX_EVENT_BYTES
    ensures Writable(p) && PieceLine(p) == line
  {
    var i := IndexOf(line, COLON);
    if i == |line| {
      p := Field(line, [], Bare);
    } else {
      assert line == line[..i] + [COLON] + line[i + 1..];
      PartsAreLines(line[..i], COLON, line[i + 1..]);
      p := TailIsAPiece(line, line[..i], line[i + 1..]);
    }
  }

  lemma {:induction false} GroupPrefix(rule: LineRule, d: Draft, a: seq<seq<byte>>, b: seq<seq<byte>>)
    requires Group(rule, d, a + b).Ok?
    ensures Group(rule, d, a).Ok? && Group(rule, Group(rule, d, a).value.0, b).Ok?
    decreases |a|
  {
    if a == [] {
      assert a + b == b;
    } else {
      assert (a + b)[1..] == a[1..] + b;
      GroupPrefix(rule, rule(d, a[0]).value.0, a[1..], b);
    }
  }

  lemma {:induction false} AllLinesGrow(items: seq<seq<Piece>>, rest: seq<Piece>, p: Piece)
    ensures AllLines(items, rest + [p]) == AllLines(items, rest) + [PieceLine(p)]
    ensures AllLines(items + [rest], []) == AllLines(items, rest) + [[]]
  {
    if items == [] {
      assert (rest + [p])[..|rest|] == rest;
      assert [rest][1..] == [] && [] + [rest] == [rest];
    } else {
      AllLinesGrow(items[1..], rest, p);
      assert (items + [rest])[1..] == items[1..] + [rest];
    }
  }

  lemma DataLineFits(d: Draft, p: Piece)
    requires Writable(p) && IsField(p, DATA_FIELD) && TakeLine(d, PieceLine(p)).Ok?
    ensures d.dataBytes + |p.value| + 1 <= MAX_EVENT_BYTES
  {
    WrittenIsFieldLine(p);
    WordsDiffer();
  }

  lemma OneLineIsTaken(d: Draft, line: seq<byte>)
    requires Group(TakeLine, d, [line]).Ok?
    ensures |line| <= MAX_EVENT_BYTES && TakeLine(d, line).Ok?
  {
  }

  lemma MorePieces(rest: seq<Piece>, p: Piece)
    requires AllWritable(rest) && Writable(p) && TakeLine(DraftOf(rest), PieceLine(p)).Ok?
    ensures AllWritable(rest + [p])
  {
    var more := rest + [p];
    assert more[..|rest|] == rest && more[|rest|] == p;
    DataStep(more);
    if IsField(p, DATA_FIELD) {
      DataLineFits(DraftOf(rest), p);
      WeightGrows(DataOf(rest), p.value);
    }
    forall i | 0 <= i < |more|
      ensures Writable(more[i])
    {
      assert i < |rest| ==> more[i] == rest[i];
    }
  }

  /** One more line taken is one more line written. */
  lemma TakenIsWritten(items: seq<seq<Piece>>, rest: seq<Piece>, line: seq<byte>)
    returns (items': seq<seq<Piece>>, rest': seq<Piece>)
    requires EachWritable(items) && AllWritable(rest) && HasNoBreak(line)
    requires |line| <= MAX_EVENT_BYTES && TakeLine(DraftOf(rest), line).Ok?
    ensures EachWritable(items') && AllWritable(rest') && AllLines(items', rest') == AllLines(items, rest) + [line]
  {
    if line == [] {
      AllLinesGrow(items, rest, Comment([]));
      items', rest' := items + [rest], [];
    } else {
      var p := LineIsAPiece(line);
      MorePieces(rest, p);
      AllLinesGrow(items, rest, p);
      items', rest' := items, rest + [p];
    }
  }

  /** The events that accepted lines are. */
  lemma {:induction false} AcceptedIsWritten(lines: seq<seq<byte>>) returns (items: seq<seq<Piece>>, rest: seq<Piece>)
    requires OneLineEach(lines) && Group(TakeLine, NO_DRAFT, lines).Ok?
    ensures EachWritable(items) && AllWritable(rest) && lines == AllLines(items, rest)
    decreases |lines|
  {
    if lines == [] {
      return [], [];
    }
    var n := |lines| - 1;
    assert lines == lines[..n] + [lines[n]];
    GroupPrefix(TakeLine, NO_DRAFT, lines[..n], [lines[n]]);
    items, rest := AcceptedIsWritten(lines[..n]);
    var _ := GroupItems(items, rest);
    OneLineIsTaken(DraftOf(rest), lines[n]);
    items, rest := TakenIsWritten(items, rest, lines[n]);
  }

  /** What a stream must be for the parser to accept it: whole events and one not ended,
      with what follows the last line end still short enough for a line. */
  ghost predicate IsStream(s: seq<byte>)
  {
    && |Unfinished(s)| <= MAX_EVENT_BYTES
    && exists items, rest :: Lines(s) == AllLines(items, rest) && EachWritable(items) && AllWritable(rest)
  }

  lemma {:induction false} LinesAreLines(s: seq<byte>)
    ensures OneLineEach(Lines(s))
    decreases |s|
  {
    if FirstBreak(s) < |s| {
      LinesStep(s);
      LinesAreLines(s[LineSpan(s)..]);
      assert Lines(s) == [Lines(s)[0]] + Lines(s)[1..];
    }
  }

  /** A stream is refused exactly when it is not one a server may write: a line that is
      not text or too long, or an event whose data is. */
  lemma AcceptedExactlyWhen(s: seq<byte>)
    ensures Feed(FRESH, s).Ok? <==> IsStream(s)
  {
    FeedIsGrouped(NO_DRAFT, s);
    LinesAreLines(s);
    if Group(TakeLine, NO_DRAFT, Lines(s)).Ok? {
      var items, rest := AcceptedIsWritten(Lines(s));
      assert Lines(s) == AllLines(items, rest);
    }
    if IsStream(s) {
      var items, rest :| Lines(s) == AllLines(items, rest) && EachWritable(items) && AllWritable(rest);
      var _ := GroupItems(items, rest);
    }
  }

  lemma ValueIsShorter(line: seq<byte>)
    requires SplitField(line).0 == DATA_FIELD
    ensures |SplitField(line).1| + 1 <= |line|
  {
    assert |DATA_FIELD| == 4;
  }

  lemma LittleIsNotTooLarge(r: Reader, b: byte, left: nat)
    requires r.draft.dataBytes + |r.line| + 1 + left <= MAX_EVENT_BYTES
    ensures TakeByte(r, b) != Err(TooLarge)
    ensures TakeByte(r, b).Ok? ==>
              var next := TakeByte(r, b).value.0;
              next.draft.dataBytes + |next.line| + left <= MAX_EVENT_BYTES
  {
    if SplitField(r.line).0 == DATA_FIELD {
      ValueIsShorter(r.line);
    }
  }

  lemma {:induction false} LittleIsAccepted(r: Reader, s: seq<byte>)
    requires r.draft.dataBytes + |r.line| + |s| <= MAX_EVENT_BYTES
    ensures Feed(r, s) != Err(TooLarge)
    decreases |s|
  {
    if s != [] {
      LittleIsNotTooLarge(r, s[0], |s| - 1);
      if TakeByte(r, s[0]).Ok? {
        LittleIsAccepted(TakeByte(r, s[0]).value.0, s[1..]);
      }
    }
  }

  lemma {:induction false} TextIsAccepted(d: Draft, lines: seq<seq<byte>>)
    requires forall i :: 0 <= i < |lines| ==> Utf8.IsText(lines[i])
    ensures Group(TakeLine, d, lines) != Err(NotText)
    decreases |lines|
  {
    if lines != [] && TakeLine(d, lines[0]).Ok? {
      TextIsAccepted(TakeLine(d, lines[0]).value.0, lines[1..]);
    }
  }

  /** A refusal says why: of lines of text, it is that something is too large; of a stream
      within the limit, that a line is not text. */
  lemma RefusalsSayWhy(s: seq<byte>)
    ensures (forall line :: line in Lines(s) ==> Utf8.IsText(line)) ==> Feed(FRESH, s) != Err(NotText)
    ensures |s| <= MAX_EVENT_BYTES ==> Feed(FRESH, s) != Err(TooLarge)
  {
    FeedIsGrouped(NO_DRAFT, s);
    if forall line :: line in Lines(s) ==> Utf8.IsText(line) {
      TextIsAccepted(NO_DRAFT, Lines(s));
    }
    if |s| <= MAX_EVENT_BYTES {
      LittleIsAccepted(FRESH, s);
    }
  }

  lemma {:induction false} JoinedIsWritten(lines: seq<seq<byte>>)
    requires lines != []
    ensures JoinLines(lines) + [LF] == WriteLines(lines, Lf)
    decreases |lines|
  {
    if |lines| == 1 {
      assert lines[1..] == [] && lines[0] + [LF] + [] == lines[0] + [LF];
    } else {
      JoinedIsWritten(lines[1..]);
      assert lines[0] + [LF] + JoinLines(lines[1..]) + [LF] == lines[0] + [LF] + (JoinLines(lines[1..]) + [LF]);
    }
  }

  /** An event's data has its values as its lines. */
  lemma DataHasItsLines(lines: seq<seq<byte>>)
    requires lines != [] && OneLineEach(lines)
    ensures Lines(JoinLines(lines) + [LF]) == lines
  {
    JoinedIsWritten(lines);
    WrittenLinesSplit(lines, Lf);
  }
}
