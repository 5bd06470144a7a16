/**
 * The event stream between the dashboard server and its web client: the Go handler prints
 * frames, the TypeScript client re-parses an arbitrarily chunked text and carries the
 * incomplete tail from one chunk to the next. Line feeds are the only line terminator,
 * a subset of sections 9.2.5 and 9.2.6 of the WHATWG HTML Living Standard.
 */
module Sse {
  import opened Common

  /** Mirrors the server's event; `progress` is the number as JSON prints it. */
  datatype Event = Event(kind: string, clusterId: string, scanId: string, progress: string, message: string)

  /** The event kinds the client's schema accepts. */
  predicate KnownKind(kind: string) {
    kind in ["scan_started", "scan_progress", "scan_completed", "posture_updated"]
  }

  /** JSON encoding on the server; JSON parsing plus schema validation on the client. */
  datatype Codec = Codec(encode: Event -> string, decode: string -> Option<Event>)

  /**
   * What the stream relies on: an encoded object is one line that starts with `{` and ends
   * with `}`, and decoding gives the event back exactly when the schema knows its kind.
   */
  ghost predicate Lawful(c: Codec) {
    && (forall e :: var t := c.encode(e);
          |t| >= 2 && t[0] == '{' && t[|t| - 1] == '}' && '\n' !in t)
    && (forall e :: c.decode(c.encode(e)) == if KnownKind(e.kind) then Some(e) else None)
    && (forall t :: c.decode(t).Some? ==> KnownKind(c.decode(t).value.kind))
  }

  const BLANK_LINE := "\n\n"
  const NEWLINE := "\n"

  // ----- String.prototype.split, startsWith, trim, join -----

  predicate At(s: string, d: string, j: int) {
    0 <= j && j + |d| <= |s| && s[j..j + |d|] == d
  }

  /** The first index at or after `i` where `d` occurs in `s`, or -1. */
  function IndexFrom(s: string, d: string, i: nat): (r: int)
    requires i <= |s| && |d| > 0
    ensures r == -1 || (i <= r && At(s, d, r))
    ensures forall j :: i <= j && At(s, d, j) ==> 0 <= r <= j
    decreases |s| - i
  {
    if i + |d| > |s| then -1
    else if At(s, d, i) then i
    else IndexFrom(s, d, i + 1)
  }

  function Split(s: string, d: string): (parts: seq<string>)
    requires |d| > 0
    ensures |parts| > 0
    decreases |s|
  {
    var k := IndexFrom(s, d, 0);
    if k == -1 then [s] else [s[..k]] + Split(s[k + |d|..], d)
  }

  predicate StartsWith(s: string, p: string) {
    p <= s
  }

  /** The white space and line terminators `String.prototype.trim` removes. */
  predicate IsSpace(c: char) {
    || c in {' ', '\t', '\n', '\r', '\U{B}', '\U{C}', '\U{A0}', '\U{FEFF}', '\U{1680}'}
    || '\U{2000}' <= c <= '\U{200A}'
    || c in {'\U{2028}', '\U{2029}', '\U{202F}', '\U{205F}', '\U{3000}'}
  }

  function Trim(s: string): string {
    if |s| > 0 && IsSpace(s[0]) then Trim(s[1..])
    else if |s| > 0 && IsSpace(s[|s| - 1]) then Trim(s[..|s| - 1])
    else s
  }

  function JoinLines(lines: seq<string>): string {
    if lines == [] then "" else if |lines| == 1 then lines[0]
    else JoinLines(lines[..|lines| - 1]) + NEWLINE + lines[|lines| - 1]
  }

  // ----- the client's parser -----

  function DataLine(line: string): seq<string> {
    if StartsWith(line, "data:") then [Trim(line[5..])] else []
  }

  /** The event one frame carries: none without data lines or when decoding rejects them. */
  function FrameEvents(c: Codec, frame: string): seq<Event> {
    var lines := FlatMap(DataLine, Split(frame, NEWLINE));
    if lines == [] then []
    else match c.decode(JoinLines(lines))
         case Some(e) => [e]
         case None => []
  }

  function FrameParser(c: Codec): string -> seq<Event> {
    (frame: string) => FrameEvents(c, frame)
  }

  datatype Parsed = Parsed(events: seq<Event>, rest: string)

  function Parse(c: Codec, buffer: string): Parsed {
    var frames := Split(buffer, BLANK_LINE);
    Parsed(FlatMap(FrameParser(c), frames[..|frames| - 1]), frames[|frames| - 1])
  }

  method ParseSSE(c: Codec, buffer: string) returns (events: seq<Event>, rest: string)
    ensures Parsed(events, rest) == Parse(c, buffer)
  {
    events := [];
    var frames := Split(buffer, BLANK_LINE);
    rest := frames[|frames| - 1];
    frames := frames[..|frames| - 1];
    for i := 0 to |frames|
      invariant events == FlatMap(FrameParser(c), frames[..i])
    {
      FlatMapStep(FrameParser(c), frames, i);
      var dataLines := FlatMap(DataLine, Split(frames[i], NEWLINE));
      if dataLines == [] {
        continue;
      }
      match c.decode(JoinLines(dataLines))
      case Some(e) => events := events + [e];
      case None =>
    }
    assert frames[..|frames|] == frames;
  }

  // ----- the client's read loop -----

  /** The buffer left and the events delivered after reading `chunks` one by one. */
  function Read(c: Codec, chunks: seq<string>): Parsed {
    if chunks == [] then Parsed([], "")
    else
      var before := Read(c, chunks[..|chunks| - 1]);
      var p := Parse(c, before.rest + chunks[|chunks| - 1]);
      Parsed(before.events + p.events, p.rest)
  }

  method OpenStream(c: Codec, chunks: seq<string>) returns (delivered: seq<Event>, buffer: string)
    ensures Parsed(delivered, buffer) == Read(c, chunks)
    ensures Parsed(delivered, buffer) == Parse(c, Joined(chunks))
  {
    buffer, delivered := "", [];
    for i := 0 to |chunks|
      invariant Parsed(delivered, buffer) == Read(c, chunks[..i])
    {
      assert chunks[..i + 1][..i] == chunks[..i];
      buffer := buffer + chunks[i];
      var events, rest := ParseSSE(c, buffer);
      buffer := rest;
      delivered := delivered + events;
    }
    assert chunks[..|chunks|] == chunks;
    ReadIsParse(c, chunks);
  }

  // ----- the server's printer -----

  function FrameText(c: Codec, e: Event): string {
    "event: " + e.kind + "\ndata: " + c.encode(e)
  }

  function Print(c: Codec, events: seq<Event>): string {
    if events == [] then "" else FrameText(c, events[0]) + BLANK_LINE + Print(c, events[1..])
  }

  /** The handler's loop over the subscriber's channel. */
  method HandleStream(c: Codec, received: seq<Event>) returns (written: string)
    ensures written == Print(c, received)
  {
    written := "";
    for i := 0 to |received|
      invariant written + Print(c, received[i..]) == Print(c, received)
    {
      written := written + (FrameText(c, received[i]) + BLANK_LINE);
      assert received[i..][1..] == received[i + 1..];
    }
  }

  // ----- parsing is a homomorphism on concatenated text -----

  lemma IndexIsFirst(s: string, d: string, k: nat)
    requires |d| > 0 && At(s, d, k)
    requires forall j :: 0 <= j < k ==> !At(s, d, j)
    ensures IndexFrom(s, d, 0) == k
  {
  }

  lemma AtExtends(p: string, q: string, d: string, j: nat)
    ensures At(p, d, j) ==> At(p + q, d, j)
    ensures j + |d| <= |p| && At(p + q, d, j) ==> At(p, d, j)
  {
  }

  lemma AtNewline(s: string, j: int)
    ensures At(s, NEWLINE, j) <==> 0 <= j < |s| && s[j] == '\n'
  {
  }

  lemma AtBlankLine(s: string, j: int)
    ensures At(s, BLANK_LINE, j) <==> 0 <= j && j + 1 < |s| && s[j] == '\n' && s[j + 1] == '\n'
  {
  }

  lemma SplitFirst(s: string, d: string)
    requires |d| > 0
    ensures var k := IndexFrom(s, d, 0);
      if k == -1 then Split(s, d) == [s]
      else 0 <= k && k + |d| <= |s| && Split(s, d) == [s[..k]] + Split(s[k + |d|..], d)
  {
    IndexInside(s, d);
    hide IndexFrom, At;
  }

  lemma IndexInside(s: string, d: string)
    requires |d| > 0
    ensures var k := IndexFrom(s, d, 0); k == -1 || (0 <= k && k + |d| <= |s|)
  {
    hide IndexFrom;
  }

  /** Appending text does not move a break that was already there. */
  lemma FirstBreakStays(p: string, q: string, d: string)
    requires |d| > 0 && IndexFrom(p, d, 0) != -1
    ensures var k := IndexFrom(p, d, 0);
      && 0 <= k && k + |d| <= |p| && IndexFrom(p + q, d, 0) == k
      && (p + q)[..k] == p[..k] && (p + q)[k + |d|..] == p[k + |d|..] + q
  {
    var k := IndexFrom(p, d, 0);
    hide IndexFrom;
    forall j | 0 <= j <= k ensures At(p + q, d, j) <==> At(p, d, j) { AtExtends(p, q, d, j); }
    IndexIsFirst(p + q, d, k);
  }

  lemma FrontOfCons(x: string, rest: seq<string>, tail: seq<string>)
    requires |rest| > 0
    ensures var all := [x] + rest;
      all[..|all| - 1] + tail == [x] + (rest[..|rest| - 1] + tail) && all[|all| - 1] == rest[|rest| - 1]
  {
  }

  /** Splitting `p + q` re-splits only the last piece of `p`. */
  lemma {:induction false} SplitConcat(p: string, q: string, d: string)
    requires |d| > 0
    ensures var parts := Split(p, d);
      Split(p + q, d) == parts[..|parts| - 1] + Split(parts[|parts| - 1] + q, d)
    decreases |p|
  {
    hide Split, IndexFrom, At;
    SplitFirst(p, d);
    var k := IndexFrom(p, d, 0);
    if k != -1 {
      FirstBreakStays(p, q, d);
      SplitFirst(p + q, d);
      SplitConcat(p[k + |d|..], q, d);
      var rest := Split(p[k + |d|..], d);
      FrontOfCons(p[..k], rest, Split(rest[|rest| - 1] + q, d));
    }
  }

  /** Parsing `p + q` delivers what `p` delivers, then what its tail followed by `q` delivers. */
  lemma ParseConcat(c: Codec, p: string, q: string)
    ensures var first := Parse(c, p);
      var second := Parse(c, first.rest + q);
      Parse(c, p + q) == Parsed(first.events + second.events, second.rest)
  {
    hide Split, FlatMap, FrameEvents;
    SplitConcat(p, q, BLANK_LINE);
    var parts := Split(p, BLANK_LINE);
    var front := parts[..|parts| - 1];
    var tail := Split(parts[|parts| - 1] + q, BLANK_LINE);
    assert (front + tail)[..|front + tail| - 1] == front + tail[..|tail| - 1];
    FlatMapConcat(FrameParser(c), front, tail[..|tail| - 1]);
  }

  function Joined(chunks: seq<string>): string {
    if chunks == [] then "" else Joined(chunks[..|chunks| - 1]) + chunks[|chunks| - 1]
  }

  /** However the text is cut, the read loop delivers what parsing it whole delivers. */
  lemma {:induction false} ReadIsParse(c: Codec, chunks: seq<string>)
    ensures Read(c, chunks) == Parse(c, Joined(chunks))
  {
    if chunks != [] {
      var front := chunks[..|chunks| - 1];
      ReadIsParse(c, front);
      ParseConcat(c, Joined(front), chunks[|chunks| - 1]);
    }
  }

  // ----- parsing what the server prints -----

  ghost predicate OneLine(s: string) {
    '\n' !in s
  }

  lemma NoBreakInOneLine(s: string)
    requires OneLine(s)
    ensures IndexFrom(s, NEWLINE, 0) == -1
    ensures Split(s, NEWLINE) == [s]
  {
    forall j ensures !At(s, NEWLINE, j) { AtNewline(s, j); }
  }

  lemma SplitTwoLines(a: string, b: string)
    requires OneLine(a) && OneLine(b)
    ensures Split(a + NEWLINE + b, NEWLINE) == [a, b]
  {
    var s := a + NEWLINE + b;
    forall j | 0 <= j <= |a| ensures At(s, NEWLINE, j) <==> j == |a| {
      AtNewline(s, j);
      assert j < |a| ==> s[j] == a[j];
    }
    IndexIsFirst(s, NEWLINE, |a|);
    assert s[..|a|] == a && s[|a| + 1..] == b;
    NoBreakInOneLine(b);
  }

  /** The shape of one printed frame. */
  lemma FrameShape(c: Codec, e: Event)
    requires Lawful(c) && OneLine(e.kind)
    ensures var head := "event: " + e.kind;
      var data := "data: " + c.encode(e);
      FrameText(c, e) == head + NEWLINE + data && OneLine(head) && OneLine(data)
  {
    assert FrameText(c, e) == ("event: " + e.kind) + NEWLINE + ("data: " + c.encode(e));
  }

  lemma FrameDecodes(c: Codec, e: Event)
    requires Lawful(c) && OneLine(e.kind)
    ensures FrameEvents(c, FrameText(c, e)) == if KnownKind(e.kind) then [e] else []
  {
    hide Split, KnownKind;
    var head, data := "event: " + e.kind, "data: " + c.encode(e);
    FrameShape(c, e);
    SplitTwoLines(head, data);
    assert head[0] == 'e';
    assert DataLine(head) == [];
    assert data[5..] == " " + c.encode(e);
    assert Trim(data[5..]) == Trim(c.encode(e)) by {
      assert data[5..][0] == ' ' && data[5..][1..] == c.encode(e);
    }
    assert DataLine(data) == [c.encode(e)];
    FlatMapSingle(DataLine, head);
    assert [head, data][..1] == [head];
  }

  /** The blank line after a frame is the first one. */
  lemma FrameEndsFirst(c: Codec, e: Event, tail: string)
    requires Lawful(c) && OneLine(e.kind)
    ensures IndexFrom(FrameText(c, e) + BLANK_LINE + tail, BLANK_LINE, 0) == |FrameText(c, e)|
  {
    var f := FrameText(c, e);
    var s := f + BLANK_LINE + tail;
    FrameShape(c, e);
    var h := |"event: " + e.kind|;
    forall j | 0 <= j <= |f| ensures At(s, BLANK_LINE, j) <==> j == |f| {
      AtBlankLine(s, j);
      assert j < |f| ==> s[j] == f[j];
      assert s[h + 1] == 'd';
    }
    IndexIsFirst(s, BLANK_LINE, |f|);
  }

  /** A whole frame in front of the buffer delivers its event first. */
  lemma ParseFrame(c: Codec, e: Event, tail: string)
    requires Lawful(c) && OneLine(e.kind)
    ensures var r := Parse(c, tail);
      Parse(c, FrameText(c, e) + BLANK_LINE + tail)
      == Parsed((if KnownKind(e.kind) then [e] else []) + r.events, r.rest)
  {
    hide Split, IndexFrom, FlatMap, FrameEvents, FrameText, Lawful, KnownKind;
    var f := FrameText(c, e);
    var s := f + BLANK_LINE + tail;
    FrameEndsFirst(c, e, tail);
    SplitFirst(s, BLANK_LINE);
    assert s[..|f|] == f && s[|f| + 2..] == tail;
    var rest := Split(tail, BLANK_LINE);
    FrontOfCons(f, rest, []);
    assert ([f] + rest)[..|rest|] == [f] + rest[..|rest| - 1];
    FlatMapConcat(FrameParser(c), [f], rest[..|rest| - 1]);
    FlatMapSingle(FrameParser(c), f);
    FrameDecodes(c, e);
  }

  ghost predicate OneLineKinds(events: seq<Event>) {
    forall e :: e in events ==> OneLine(e.kind)
  }

  function Known(events: seq<Event>): seq<Event> {
    if events == [] then []
    else (if KnownKind(events[0].kind) then [events[0]] else []) + Known(events[1..])
  }

  lemma NothingParsed(c: Codec)
    ensures Parse(c, "") == Parsed([], "")
  {
    assert Split("", BLANK_LINE) == [""];
  }

  lemma {:induction false} ParsePrinted(c: Codec, events: seq<Event>)
    requires Lawful(c) && OneLineKinds(events)
    ensures Parse(c, Print(c, events)) == Parsed(Known(events), "")
  {
    hide Parse;
    if events == [] {
      NothingParsed(c);
    } else {
      ParsePrinted(c, events[1..]);
      ParseFrame(c, events[0], Print(c, events[1..]));
    }
  }

  ghost predicate AllKnown(events: seq<Event>) {
    forall e :: e in events ==> KnownKind(e.kind)
  }

  lemma KnownIsOneLine(kind: string)
    requires KnownKind(kind)
    ensures OneLine(kind)
  {
  }

  lemma {:induction false} KnownIsAll(events: seq<Event>)
    requires AllKnown(events)
    ensures Known(events) == events && OneLineKinds(events)
  {
    if events != [] {
      KnownIsAll(events[1..]);
      KnownIsOneLine(events[0].kind);
      forall e | e in events ensures OneLine(e.kind) { KnownIsOneLine(e.kind); }
    }
  }

  lemma {:induction false} DeliveredAreKnown(c: Codec, frames: seq<string>, e: Event)
    requires Lawful(c) && e in FlatMap(FrameParser(c), frames)
    ensures KnownKind(e.kind)
  {
    FlatMapMembers(FrameParser(c), frames, e);
  }

  /**
   * Round trip under any chunking: however the server's output is cut, the client delivers
   * the published events in order and keeps no tail, exactly when every kind is known.
   */
  lemma RoundTrip(c: Codec, events: seq<Event>, chunks: seq<string>)
    requires Lawful(c) && Joined(chunks) == Print(c, events)
    ensures Read(c, chunks) == Parsed(events, "") <==> AllKnown(events)
  {
    ReadIsParse(c, chunks);
    if AllKnown(events) {
      KnownIsAll(events);
      ParsePrinted(c, events);
    }
    if Read(c, chunks) == Parsed(events, "") {
      var frames := Split(Joined(chunks), BLANK_LINE);
      forall e | e in events ensures KnownKind(e.kind) {
        DeliveredAreKnown(c, frames[..|frames| - 1], e);
      }
    }
  }

  /** Kinds the schema does not know are skipped; nothing else is lost or reordered. */
  lemma UnknownKindsSkipped(c: Codec, events: seq<Event>, chunks: seq<string>)
    requires Lawful(c) && OneLineKinds(events) && Joined(chunks) == Print(c, events)
    ensures Read(c, chunks) == Parsed(Known(events), "")
  {
    ReadIsParse(c, chunks);
    ParsePrinted(c, events);
  }

  // ----- a connection that drops anywhere -----

  /** How many whole frames fit in the first `n` characters of the output. */
  function WholeFrames(c: Codec, events: seq<Event>, n: nat): (k: nat)
    ensures k <= |events|
  {
    if events == [] || n < |FrameText(c, events[0])| + 2 then 0
    else 1 + WholeFrames(c, events[1..], n - |FrameText(c, events[0])| - 2)
  }

  lemma CutFrameHasNoBreak(c: Codec, e: Event, tail: string, n: nat)
    requires Lawful(c) && OneLine(e.kind) && n < |FrameText(c, e)| + 2
    ensures n <= |FrameText(c, e) + BLANK_LINE + tail|
    ensures var s := (FrameText(c, e) + BLANK_LINE + tail)[..n];
      Parse(c, s) == Parsed([], s)
  {
    var whole := FrameText(c, e) + BLANK_LINE + tail;
    var s := whole[..n];
    FrameEndsFirst(c, e, tail);
    assert whole == s + whole[n..];
    forall j: nat ensures !At(s, BLANK_LINE, j) { AtExtends(s, whole[n..], BLANK_LINE, j); }
  }

  /**
   * If the connection drops after any `n` characters, the client has delivered exactly the
   * known events whose frames arrived whole, and its buffer is the cut frame.
   */
  lemma {:induction false} CutStream(c: Codec, events: seq<Event>, n: nat)
    requires Lawful(c) && OneLineKinds(events) && n <= |Print(c, events)|
    ensures CutAt(c, events, n)
  {
    hide Parse, FrameText, Lawful;
    if events == [] {
      NothingParsed(c);
    } else {
      assert events[0] in events;
      var e, tail := events[0], Print(c, events[1..]);
      PrintFirst(c, events);
      var size := |FrameText(c, e)| + 2;
      if n < size {
        CutFrameHasNoBreak(c, e, tail, n);
      } else {
        CutStream(c, events[1..], n - size);
        CutLater(c, events, n);
      }
    }
  }

  /** Delivered and left over, for a stream cut after `n` characters. */
  ghost predicate CutAt(c: Codec, events: seq<Event>, n: nat)
    requires n <= |Print(c, events)|
  {
    var k := WholeFrames(c, events, n);
    var p := Parse(c, Print(c, events)[..n]);
    p.events == Known(events[..k]) && Print(c, events[..k]) + p.rest == Print(c, events)[..n]
  }

  /** A cut behind the first frame is a cut of the later frames. */
  lemma CutLater(c: Codec, events: seq<Event>, n: nat)
    requires Lawful(c) && OneLineKinds(events) && events != []
    requires |FrameText(c, events[0])| + 2 <= n <= |Print(c, events)|
    requires CutAt(c, events[1..], n - |FrameText(c, events[0])| - 2)
    ensures CutAt(c, events, n)
  {
    hide Parse, FrameText, Lawful, KnownKind, Print, WholeFrames, Known;
    assert events[0] in events;
    var e, tail := events[0], Print(c, events[1..]);
    var f := FrameText(c, e) + BLANK_LINE;
    var m := n - |f|;
    PrintFirst(c, events);
    TakeBehind(f, tail, n);
    ParseFrame(c, e, tail[..m]);
    var k := WholeFrames(c, events[1..], m);
    var later := events[1..][..k];
    assert events[..k + 1] == [e] + later;
    PrintFirst(c, events[..k + 1]);
    assert events[..k + 1][1..] == later;
    OneMoreFrame(c, events, n);
    KnownFirst(e, later);
    AppendAssociative(f, Print(c, later), Parse(c, tail[..m]).rest);
  }

  lemma OneMoreFrame(c: Codec, events: seq<Event>, n: nat)
    requires events != [] && n >= |FrameText(c, events[0])| + 2
    ensures WholeFrames(c, events, n) == 1 + WholeFrames(c, events[1..], n - |FrameText(c, events[0])| - 2)
  {
  }

  lemma KnownFirst(e: Event, later: seq<Event>)
    ensures Known([e] + later) == (if KnownKind(e.kind) then [e] else []) + Known(later)
  {
    assert ([e] + later)[1..] == later;
  }

  lemma PrintFirst(c: Codec, events: seq<Event>)
    requires events != []
    ensures Print(c, events) == FrameText(c, events[0]) + BLANK_LINE + Print(c, events[1..])
  {
  }

  lemma TakeBehind(f: string, tail: string, n: nat)
    requires |f| <= n <= |f + tail|
    ensures (f + tail)[..n] == f + tail[..n - |f|]
  {
  }

  lemma AppendAssociative(a: string, b: string, c: string)
    ensures (a + b) + c == a + (b + c)
  {
  }

  /** The same for a stream read chunk by chunk: every intermediate state is a cut stream. */
  lemma DroppedConnection(c: Codec, events: seq<Event>, chunks: seq<string>, n: nat)
    requires Lawful(c) && OneLineKinds(events) && n <= |Print(c, events)|
    requires Joined(chunks) == Print(c, events)[..n]
    ensures Read(c, chunks).events == Known(events[..WholeFrames(c, events, n)])
  {
    ReadIsParse(c, chunks);
    CutStream(c, events, n);
  }

  // ----- a codec that meets the laws, so nothing above is vacuous -----

  function Escaped(ch: char): string {
    if ch == '\n' then "\\n" else if ch == '\"' then "\\q" else if ch == '\\' then "\\\\" else [ch]
  }

  function Quoted(s: string): (q: string)
    ensures |q| > 0 && '\n' !in q
  {
    if s == "" then "\"" else Escaped(s[0]) + Quoted(s[1..])
  }

  lemma EscapedInjective(a: char, b: char, u: string, v: string)
    requires Escaped(a) + u == Escaped(b) + v
    ensures a == b && u == v
  {
    var x, y := Escaped(a), Escaped(b);
    assert (x + u)[0] == x[0] && (y + v)[0] == y[0];
    assert |x| == |y|;
    assert (x + u)[..|x|] == x && (y + v)[..|y|] == y;
    assert (x + u)[|x|..] == u && (y + v)[|y|..] == v;
  }

  lemma QuotedStart(s: string, x: string)
    ensures s == "" ==> Quoted(s) + x == "\"" + x
    ensures s != "" ==> Quoted(s) + x == Escaped(s[0]) + (Quoted(s[1..]) + x)
    ensures (Quoted(s) + x)[0] == '\"' <==> s == ""
  {
    if s != "" { AppendAssociative(Escaped(s[0]), Quoted(s[1..]), x); }
  }

  /** A quoted field can be told apart from whatever follows it. */
  lemma {:induction false} QuotedInjective(s: string, t: string, x: string, y: string)
    requires Quoted(s) + x == Quoted(t) + y
    ensures s == t && x == y
  {
    hide Quoted, Escaped;
    QuotedStart(s, x);
    QuotedStart(t, y);
    if s == "" {
      assert x == ("\"" + x)[1..] && y == ("\"" + y)[1..];
    } else {
      EscapedInjective(s[0], t[0], Quoted(s[1..]) + x, Quoted(t[1..]) + y);
      QuotedInjective(s[1..], t[1..], x, y);
      assert s == [s[0]] + s[1..] && t == [t[0]] + t[1..];
    }
  }

  function Fields(e: Event): string {
    Quoted(e.kind) + (Quoted(e.clusterId) + (Quoted(e.scanId) + (Quoted(e.progress) + (Quoted(e.message) + ""))))
  }

  lemma FieldsInjective(e: Event, f: Event)
    requires Fields(e) == Fields(f)
    ensures e == f
  {
    var e4, f4 := Quoted(e.message) + "", Quoted(f.message) + "";
    var e3, f3 := Quoted(e.progress) + e4, Quoted(f.progress) + f4;
    var e2, f2 := Quoted(e.scanId) + e3, Quoted(f.scanId) + f3;
    var e1, f1 := Quoted(e.clusterId) + e2, Quoted(f.clusterId) + f2;
    QuotedInjective(e.kind, f.kind, e1, f1);
    QuotedInjective(e.clusterId, f.clusterId, e2, f2);
    QuotedInjective(e.scanId, f.scanId, e3, f3);
    QuotedInjective(e.progress, f.progress, e4, f4);
    QuotedInjective(e.message, f.message, "", "");
  }

  function SampleEncode(e: Event): string {
    "{" + Fields(e) + "}"
  }

  ghost function SampleDecode(t: string): Option<Event> {
    if exists e: Event :: KnownKind(e.kind) && SampleEncode(e) == t
    then var e: Event :| KnownKind(e.kind) && SampleEncode(e) == t; Some(e)
    else None
  }

  lemma SampleEncodeInjective(e: Event, f: Event)
    requires SampleEncode(e) == SampleEncode(f)
    ensures e == f
  {
    hide Fields;
    assert SampleEncode(e)[1..|SampleEncode(e)| - 1] == Fields(e);
    assert SampleEncode(f)[1..|SampleEncode(f)| - 1] == Fields(f);
    FieldsInjective(e, f);
  }

  lemma SampleShape(e: Event)
    ensures var t := SampleEncode(e); |t| >= 2 && t[0] == '{' && t[|t| - 1] == '}' && '\n' !in t
  {
    hide Quoted;
  }

  lemma SampleDecodes(e: Event)
    ensures SampleDecode(SampleEncode(e)) == if KnownKind(e.kind) then Some(e) else None
  {
    hide SampleEncode, KnownKind;
    forall f: Event | SampleEncode(f) == SampleEncode(e) ensures f == e { SampleEncodeInjective(f, e); }
  }

  lemma LawfulCodecExists()
    ensures exists c :: Lawful(c)
  {
    hide SampleEncode, KnownKind;
    var c := Codec(SampleEncode, SampleDecode);
    forall e ensures var t := c.encode(e); |t| >= 2 && t[0] == '{' && t[|t| - 1] == '}' && '\n' !in t {
      SampleShape(e);
    }
    forall e ensures c.decode(c.encode(e)) == if KnownKind(e.kind) then Some(e) else None { SampleDecodes(e); }
    assert Lawful(c);
  }

  // ----- frames, line by line -----

  /** A printed frame is an event line and a data line. */
  lemma FrameLines(c: Codec, e: Event)
    requires Lawful(c) && OneLine(e.kind)
    ensures Split(FrameText(c, e), NEWLINE) == ["event: " + e.kind, "data: " + c.encode(e)]
  {
    FrameShape(c, e);
    SplitTwoLines("event: " + e.kind, "data: " + c.encode(e));
  }

  /** Several data lines are one document with line breaks between them. */
  lemma DataLinesJoin(c: Codec, a: string, b: string)
    requires OneLine(a) && OneLine(b)
    ensures FrameEvents(c, "data:" + a + NEWLINE + ("data:" + b)) ==
      match c.decode(Trim(a) + NEWLINE + Trim(b)) case Some(e) => [e] case None => []
  {
    hide Split, Trim;
    SplitTwoLines("data:" + a, "data:" + b);
    assert ("data:" + a)[5..] == a && ("data:" + b)[5..] == b;
    assert DataLine("data:" + a) == [Trim(a)] && DataLine("data:" + b) == [Trim(b)];
    FlatMapConcat(DataLine, ["data:" + a], ["data:" + b]);
    FlatMapSingle(DataLine, "data:" + a);
    FlatMapSingle(DataLine, "data:" + b);
    assert ["data:" + a] + ["data:" + b] == ["data:" + a, "data:" + b];
    var lines := [Trim(a)] + [Trim(b)];
    assert FlatMap(DataLine, ["data:" + a, "data:" + b]) == lines;
    assert lines == [Trim(a), Trim(b)] && lines[..1] == [Trim(a)];
    assert JoinLines(lines) == Trim(a) + NEWLINE + Trim(b);
  }

  /** A frame without a data line, such as a keep-alive comment, delivers nothing. */
  lemma CommentsIgnored(c: Codec, line: string)
    requires OneLine(line) && !("data:" <= line)
    ensures FrameEvents(c, line) == []
  {
    NoBreakInOneLine(line);
    FlatMapSingle(DataLine, line);
  }

  /** What trimming keeps is what lies between the white space at both ends. */
  lemma {:induction false} TrimMeaning(s: string) returns (i: nat, j: nat)
    ensures i <= j <= |s| && Trim(s) == s[i..j]
    ensures (forall k :: 0 <= k < i ==> IsSpace(s[k])) && (forall k :: j <= k < |s| ==> IsSpace(s[k]))
    ensures i < j ==> !IsSpace(s[i]) && !IsSpace(s[j - 1])
    decreases |s|
  {
    hide IsSpace;
    if |s| > 0 && IsSpace(s[0]) {
      var rest := s[1..];
      i, j := TrimMeaning(rest);
      assert rest[i..j] == s[i + 1..j + 1];
      assert forall k :: 1 <= k < |s| ==> s[k] == rest[k - 1];
      i, j := i + 1, j + 1;
    } else if |s| > 0 && IsSpace(s[|s| - 1]) {
      var rest := s[..|s| - 1];
      i, j := TrimMeaning(rest);
      assert rest[i..j] == s[i..j];
    } else {
      i, j := 0, |s|;
      assert s[0..|s|] == s;
    }
  }
}
