/** Request paths: one segment per receiver id, whatever is in it, and the row of the
    route table each path leads to. */
module Paths {
  import opened Base

  predicate IsUnreserved(b: byte)
  {
    || 48 <= b <= 57 || 65 <= b <= 90 || 97 <= b <= 122        // digits and letters
    || b == 45 || b == 46 || b == 95 || b == 126                // - . _ ~
  }

  function HexDigit(n: int): char
    requires 0 <= n < 16
  {
    if n < 10 then (n + '0' as int) as char else (n - 10 + 'A' as int) as char
  }

  /** One byte as it stands in a segment. */
  function EncodeByte(b: byte): string
  {
    if IsUnreserved(b) then [b as int as char]
    else ['%', HexDigit(b as int / 16), HexDigit(b as int % 16)]
  }

  function Encode(text: seq<byte>): string
  {
    if text == [] then "" else EncodeByte(text[0]) + Encode(text[1..])
  }

  method EncodeSegment(text: seq<byte>) returns (out: string)
    ensures out == Encode(text)
  {
    out := "";
    var i := 0;
    assert text[0..] == text && "" + Encode(text) == Encode(text);
    while i < |text|
      invariant 0 <= i <= |text|
      invariant Encode(text) == out + Encode(text[i..])
    {
      EncodeStep(text, i, out);
      if IsUnreserved(text[i]) {
        out := out + [text[i] as int as char];
      } else {
        out := out + ['%', HexDigit(text[i] as int / 16), HexDigit(text[i] as int % 16)];
      }
      i := i + 1;
    }
    assert out + "" == out;
  }

  lemma EncodeStep(text: seq<byte>, i: nat, out: string)
    requires i < |text|
    ensures out + Encode(text[i..]) == out + EncodeByte(text[i]) + Encode(text[i + 1..])
  {
    assert text[i..][1..] == text[i + 1..];
  }

  // ---- Decoding undoes it ----

  function HexValue(c: char): Option<int>
  {
    if '0' <= c <= '9' then Some(c as int - '0' as int)
    else if 'A' <= c <= 'F' then Some(c as int - 'A' as int + 10)
    else if 'a' <= c <= 'f' then Some(c as int - 'a' as int + 10)
    else None
  }

  /** Percent-decoding, as section 2.1 of RFC 3986 has it. */
  function Decode(s: string): Option<seq<byte>>
  {
    if s == "" then Some([])
    else if s[0] == '%' then
      if |s| < 3 || HexValue(s[1]).None? || HexValue(s[2]).None? then None
      else
        match Decode(s[3..])
        case None => None
        case Some(rest) => Some([(HexValue(s[1]).value * 16 + HexValue(s[2]).value) as byte] + rest)
    else if s[0] as int >= 128 then None
    else
      match Decode(s[1..])
      case None => None
      case Some(rest) => Some([s[0] as int as byte] + rest)
  }

  lemma HexReadsBack(n: int)
    requires 0 <= n < 16
    ensures HexValue(HexDigit(n)) == Some(n)
  {
  }

  lemma ByteReadsBack(b: byte, rest: string)
    ensures Decode(EncodeByte(b) + rest) ==
            match Decode(rest) { case None => None case Some(more) => Some([b] + more) }
  {
    var n := b as int;
    var s := EncodeByte(b) + rest;
    if IsUnreserved(b) {
      assert s[1..] == rest;
    } else {
      HexReadsBack(n / 16);
      HexReadsBack(n % 16);
      assert s[3..] == rest;
    }
  }

  /** A segment decodes to exactly what was encoded. */
  lemma {:induction false} SegmentsReadBack(text: seq<byte>)
    ensures Decode(Encode(text)) == Some(text)
  {
    if text != [] {
      SegmentsReadBack(text[1..]);
      ByteReadsBack(text[0], Encode(text[1..]));
      assert [text[0]] + text[1..] == text;
    }
  }

  /** So different ids never share a segment. */
  lemma SegmentsAreDistinct(a: seq<byte>, b: seq<byte>)
    ensures Encode(a) == Encode(b) ==> a == b
  {
    SegmentsReadBack(a);
    SegmentsReadBack(b);
  }

  predicate IsSegmentChar(c: char)
  {
    '0' <= c <= '9' || 'A' <= c <= 'Z' || 'a' <= c <= 'z' || c == '-' || c == '.' || c == '_' || c == '~' || c == '%'
  }

  /** A segment stays a segment: it holds nothing that ends one or starts a query, and is
      empty only for the empty id. */
  lemma {:induction false} SegmentsStayInside(text: seq<byte>)
    ensures forall i :: 0 <= i < |Encode(text)| ==> IsSegmentChar(Encode(text)[i])
    ensures text != [] ==> Encode(text) != ""
  {
    if text != [] {
      SegmentsStayInside(text[1..]);
      var head := EncodeByte(text[0]);
      assert forall i :: 0 <= i < |head| ==> IsSegmentChar(head[i]);
    }
  }

  const CAPITALS: string := "ABCDEFGHIJKLMNOPQRSTUVWXYZ"
  const SMALLS: string := "abcdefghijklmnopqrstuvwxyz"
  const DIGITS_AND_MARKS: string := "0123456789-._~"
  const UPPER_HEX: string := "0123456789ABCDEF"

  /** The unreserved characters of section 2.3 of RFC 3986. */
  predicate IsListed(c: char)
  {
    c in CAPITALS || c in SMALLS || c in DIGITS_AND_MARKS
  }

  /** How section 2 of RFC 3986 has one byte written: itself if it is unreserved, and
      otherwise a percent sign and two capital digits that spell it. */
  ghost predicate IsWritten(b: byte, s: string)
  {
    if b < 128 && IsListed(b as int as char) then s == [b as int as char]
    else
      && |s| == 3 && s[0] == '%' && s[1] in UPPER_HEX && s[2] in UPPER_HEX
      && exists i, j :: 0 <= i < 16 && 0 <= j < 16 && s[1] == UPPER_HEX[i] && s[2] == UPPER_HEX[j] && b as int == i * 16 + j
  }

  lemma DigitIsUpperHex(n: int)
    requires 0 <= n < 16
    ensures HexDigit(n) == UPPER_HEX[n] && HexDigit(n) in UPPER_HEX
  {
  }

  lemma CapitalsAreListed(c: char)
    ensures c in CAPITALS <==> 'A' <= c <= 'Z'
  {
  }

  lemma SmallsAreListed(c: char)
    ensures c in SMALLS <==> 'a' <= c <= 'z'
  {
  }

  lemma OthersAreListed(c: char)
    ensures c in DIGITS_AND_MARKS <==> '0' <= c <= '9' || c == '-' || c == '.' || c == '_' || c == '~'
  {
  }

  lemma UnreservedIsListed(b: byte)
    ensures IsUnreserved(b) <==> b < 128 && IsListed(b as int as char)
  {
    if b < 128 {
      CapitalsAreListed(b as int as char);
      SmallsAreListed(b as int as char);
      OthersAreListed(b as int as char);
    }
  }

  lemma BytesAreWritten(b: byte)
    ensures IsWritten(b, EncodeByte(b))
  {
    UnreservedIsListed(b);
    DigitIsUpperHex(b as int / 16);
    DigitIsUpperHex(b as int % 16);
  }

  /** A segment writes each byte so, one after the other. */
  lemma {:induction false} SegmentsAreWrittenByTheByte(text: seq<byte>) returns (parts: seq<string>)
    ensures |parts| == |text| && Concat(parts) == Encode(text)
    ensures forall i :: 0 <= i < |text| ==> IsWritten(text[i], parts[i])
  {
    parts := [];
    if text != [] {
      var more := SegmentsAreWrittenByTheByte(text[1..]);
      BytesAreWritten(text[0]);
      parts := [EncodeByte(text[0])] + more;
      assert parts[1..] == more;
    }
  }

  // ---- Routes ----

  /** The segments of a path: what lies between its slashes. */
  function Split(path: string): (segments: seq<string>)
    ensures segments != []
  {
    if path == "" then [""]
    else
      var rest := Split(path[1..]);
      if path[0] == '/' then [""] + rest else [[path[0]] + rest[0]] + rest[1..]
  }

  function Join(segments: seq<string>): string
    requires segments != []
  {
    if |segments| == 1 then segments[0] else segments[0] + "/" + Join(segments[1..])
  }

  predicate NoSlash(s: string)
  {
    forall i :: 0 <= i < |s| ==> s[i] != '/'
  }

  lemma {:induction false} SplitSegment(s: string, rest: string)
    requires NoSlash(s)
    ensures Split(s) == [s] && Split(s + "/" + rest) == [s] + Split(rest)
  {
    var all := s + "/" + rest;
    if s == "" {
      assert all[1..] == rest;
    } else {
      SplitSegment(s[1..], rest);
      assert all[1..] == s[1..] + "/" + rest;
      assert s == [s[0]] + s[1..];
    }
  }

  lemma {:induction false} SplitUndoesJoin(segments: seq<string>)
    requires segments != [] && forall i :: 0 <= i < |segments| ==> NoSlash(segments[i])
    ensures Split(Join(segments)) == segments
  {
    if |segments| == 1 {
      SplitSegment(segments[0], "");
    } else {
      SplitUndoesJoin(segments[1..]);
      SplitSegment(segments[0], Join(segments[1..]));
    }
  }

  datatype RouteId =
    | Health | Receivers | State | Sources | StateEvents | OperationEvents | Submit | DryRun | Operation | Cancel
    | Discover | AdHoc | ConfigGet | ConfigPut | QuickSelectNames | HttpInformation | Refresh | PolicyGet | PolicyReload
    | Audit | TokenIssue | TokenList | TokenRevoke

  const ID := "{id}"

  /** The path pattern of a route, split at its slashes. */
  function PatternOf(route: RouteId): seq<string>
  {
    match route
    case Health => ["", "v1", "health"]
    case Receivers => ["", "v1", "receivers"]
    case State => ["", "v1", "receivers", ID, "state"]
    case Sources => ["", "v1", "receivers", ID, "sources"]
    case StateEvents => ["", "v1", "receivers", ID, "events"]
    case OperationEvents => ["", "v1", "operations", "events"]
    case Submit => ["", "v1", "receivers", ID, "operations"]
    case DryRun => ["", "v1", "receivers", ID, "operations", "dry-run"]
    case Operation => ["", "v1", "operations", ID]
    case Cancel => ["", "v1", "operations", ID, "cancel"]
    case Discover => ["", "v1", "receivers", "discover"]
    case AdHoc => ["", "v1", "receivers", "ad-hoc"]
    case ConfigGet => ["", "v1", "config"]
    case ConfigPut => ["", "v1", "config"]
    case QuickSelectNames => ["", "v1", "receivers", ID, "quick-select-names"]
    case HttpInformation => ["", "v1", "receivers", ID, "http-information"]
    case Refresh => ["", "v1", "receivers", ID, "refresh"]
    case PolicyGet => ["", "v1", "policy"]
    case PolicyReload => ["", "v1", "policy", "reload"]
    case Audit => ["", "v1", "audit"]
    case TokenIssue => ["", "v1", "tokens"]
    case TokenList => ["", "v1", "tokens"]
    case TokenRevoke => ["", "v1", "tokens", ID]
  }

  predicate SegmentFits(p: string, q: string)
  {
    (p != "" && p[0] == '{' && q != "") || p == q
  }

  /** A path and a pattern agree segment by segment; a placeholder takes any non-empty one. */
  predicate Fits(pattern: seq<string>, path: string)
  {
    var segments := Split(path);
    |pattern| == |segments| && forall i :: 0 <= i < |pattern| ==> SegmentFits(pattern[i], segments[i])
  }

  /** The resources of one receiver, and the word their path ends with. */
  predicate IsOfReceiver(route: RouteId)
  {
    || route.State? || route.Sources? || route.StateEvents? || route.Submit? || route.DryRun?
    || route.QuickSelectNames? || route.HttpInformation? || route.Refresh?
  }

  /** What the path of a receiver's resource ends with. */
  function Ending(route: RouteId): string
    requires IsOfReceiver(route)
  {
    match route
    case State => "state"
    case Sources => "sources"
    case StateEvents => "events"
    case Submit => "operations"
    case DryRun => "operations/dry-run"
    case QuickSelectNames => "quick-select-names"
    case HttpInformation => "http-information"
    case Refresh => "refresh"
  }

  /** The path a client builds for a receiver's resource. */
  function ReceiverPath(route: RouteId, receiver: seq<byte>): string
    requires IsOfReceiver(route)
  {
    "/v1/receivers/" + Encode(receiver) + "/" + Ending(route)
  }

  /** The pattern with the id put in. */
  function Filled(route: RouteId, id: string): seq<string>
    requires IsOfReceiver(route)
  {
    PatternOf(route)[3 := id]
  }

  lemma JoinCons(a: string, rest: seq<string>)
    requires rest != []
    ensures Join([a] + rest) == a + "/" + Join(rest)
  {
    assert ([a] + rest)[1..] == rest;
  }

  /** Every receiver's path, joined from its front and its end. */
  lemma FrontIsJoined(id: string, end: seq<string>)
    requires end != []
    ensures "/v1/receivers/" + id + "/" + Join(end) == Join(["", "v1", "receivers", id] + end)
  {
    JoinCons(id, end);
    JoinCons("receivers", [id] + end);
    JoinCons("v1", ["receivers"] + ([id] + end));
    JoinCons("", ["v1"] + (["receivers"] + ([id] + end)));
    assert ["", "v1", "receivers", id] + end == [""] + (["v1"] + (["receivers"] + ([id] + end)));
    FrontIsSpelled(id, Join(end));
  }

  lemma FrontIsSpelled(id: string, end: string)
    ensures "/v1/receivers/" + id + "/" + end == "" + "/" + ("v1" + "/" + ("receivers" + "/" + (id + "/" + end)))
  {
    assert "/v1/receivers/" == "" + "/" + ("v1" + "/" + ("receivers" + "/"));
  }

  lemma EndingIsJoined(route: RouteId, id: string)
    requires IsOfReceiver(route)
    ensures |PatternOf(route)| >= 5 && Ending(route) == Join(PatternOf(route)[4..])
    ensures Filled(route, id) == ["", "v1", "receivers", id] + PatternOf(route)[4..]
  {
    if route.DryRun? {
      assert PatternOf(route)[4..] == ["operations"] + ["dry-run"];
      JoinCons("operations", ["dry-run"]);
      assert "operations/dry-run" == "operations" + "/" + "dry-run";
    }
  }

  lemma PathIsFilled(route: RouteId, receiver: seq<byte>)
    requires IsOfReceiver(route)
    ensures ReceiverPath(route, receiver) == Join(Filled(route, Encode(receiver)))
  {
    EndingIsJoined(route, Encode(receiver));
    FrontIsJoined(Encode(receiver), PatternOf(route)[4..]);
  }

  lemma WordsHaveNoSlash()
    ensures NoSlash("") && NoSlash("v1") && NoSlash("receivers") && NoSlash("operations") && NoSlash("dry-run")
    ensures NoSlash("state") && NoSlash("sources") && NoSlash("events") && NoSlash("refresh")
    ensures NoSlash("quick-select-names") && NoSlash("http-information")
  {
  }

  lemma FilledHasNoSlash(route: RouteId, id: string, i: nat)
    requires IsOfReceiver(route) && NoSlash(id) && i < |Filled(route, id)|
    ensures NoSlash(Filled(route, id)[i])
  {
    WordsHaveNoSlash();
  }

  lemma PathSplits(route: RouteId, receiver: seq<byte>)
    requires IsOfReceiver(route)
    ensures Split(ReceiverPath(route, receiver)) == Filled(route, Encode(receiver))
  {
    var id := Encode(receiver);
    PathIsFilled(route, receiver);
    SegmentsStayInside(receiver);
    FilledSplits(route, id);
  }

  lemma FilledSplits(route: RouteId, id: string)
    requires IsOfReceiver(route) && NoSlash(id)
    ensures Split(Join(Filled(route, id))) == Filled(route, id)
  {
    forall i | 0 <= i < |Filled(route, id)|
      ensures NoSlash(Filled(route, id)[i])
    {
      FilledHasNoSlash(route, id, i);
    }
    SplitUndoesJoin(Filled(route, id));
  }

  /** Whether the segments of a receiver's path fit a pattern. */
  predicate SegmentsFit(pattern: seq<string>, segments: seq<string>)
  {
    |pattern| == |segments| && forall i :: 0 <= i < |pattern| ==> SegmentFits(pattern[i], segments[i])
  }

  lemma FilledFitsItsOwn(route: RouteId, id: string)
    requires IsOfReceiver(route) && id != ""
    ensures SegmentsFit(PatternOf(route), Filled(route, id))
  {
  }

  lemma FilledFitsNoOther(route: RouteId, other: RouteId, id: string)
    requires IsOfReceiver(route) && other != route
    ensures !SegmentsFit(PatternOf(other), Filled(route, id))
  {
    var p, q := PatternOf(other), Filled(route, id);
    if |p| == |q| == 5 {
      assert !SegmentFits(p[4], q[4]);
    }
  }

  /** Whatever a receiver is called, the path built for its resource fits the row of that
      resource and no other row of the table. */
  lemma PathsLeadToTheirRoute(route: RouteId, receiver: seq<byte>, row: RouteId)
    requires IsOfReceiver(route) && receiver != []
    ensures Fits(PatternOf(row), ReceiverPath(route, receiver)) <==> row == route
  {
    PathSplits(route, receiver);
    SegmentsStayInside(receiver);
    if row == route {
      FilledFitsItsOwn(route, Encode(receiver));
    } else {
      FilledFitsNoOther(route, row, Encode(receiver));
    }
  }

  /** A receiver without a name has no path: no row of the table fits. */
  lemma NoPathWithoutAName(route: RouteId, row: RouteId)
    requires IsOfReceiver(route)
    ensures !Fits(PatternOf(row), ReceiverPath(route, []))
  {
    PathSplits(route, []);
    if row == route {
      assert !SegmentFits(PatternOf(row)[3], Filled(route, Encode([]))[3]);
    } else {
      FilledFitsNoOther(route, row, Encode([]));
    }
  }
}
