/** The proxy between the daemon's NDJSON stream and the browser: bytes in arbitrary chunks go in, one named
    event per line comes out. */
module Sse {
  import opened Bytes
  import opened Options
  import opened Proto
  import opened Viewing
  import opened ViewerLog

  /** A line as `serde_json` sees it; a line it rejects is `Malformed`. */
  datatype Message =
    | PhaseIs(phase: Phase)
    | OneFrame(frame: LogFrame)
    | Lag(missed: nat)
    | Outcome(outcome: JobOutcome)
    | CutOff(reason: string)
    | Malformed(error: string)
  {
    predicate Closes() { Outcome? || CutOff? || Malformed? }
  }

  /** The named events; a frame is tagged with the phase it was seen in. */
  datatype Event =
    | PhaseEvent(phase: Phase)
    | FrameEvent(frame: LogFrame, during: Option<Phase>)
    | LaggedEvent(missed: nat)
    | TerminalEvent(outcome: JobOutcome)
    | TruncatedEvent(reason: string)
  {
    predicate Closes() { TerminalEvent? || TruncatedEvent? }
  }

  /** What the upstream body yields; after the items it is at its end. */
  datatype Item = Chunk(bytes: seq<Byte>) | IoError(message: string)
  datatype End = Eof | Broken(message: string)

  type Parser = seq<Byte> -> Message

  // ---- the batch meaning: split, drop empty lines, parse, stop at the first closing line, tag -----------

  function FirstNewline(bytes: seq<Byte>): (r: Option<nat>)
    ensures r.Some? ==> r.value < |bytes| && bytes[r.value] == NEWLINE && forall i | 0 <= i < r.value :: bytes[i] != NEWLINE
    ensures r.None? ==> forall i | 0 <= i < |bytes| :: bytes[i] != NEWLINE
  {
    if bytes == [] then None
    else if bytes[0] == NEWLINE then Some(0)
    else
      var r := FirstNewline(bytes[1..]);
      if r.Some? then Some(r.value + 1) else None
  }

  /** The newline-terminated lines; an unterminated rest is not a line. */
  function Lines(bytes: seq<Byte>): seq<seq<Byte>>
    decreases |bytes|
  {
    var nl := FirstNewline(bytes);
    if nl.None? then [] else [bytes[..nl.value]] + Lines(bytes[nl.value + 1..])
  }

  function Parsed(parse: Parser, lines: seq<seq<Byte>>): seq<Message> {
    if lines == [] then []
    else (if lines[0] == [] then [] else [parse(lines[0])]) + Parsed(parse, lines[1..])
  }

  /** Up to and including the first message that closes the stream. */
  function ToClose(ms: seq<Message>): seq<Message> {
    if ms == [] then [] else if ms[0].Closes() then [ms[0]] else [ms[0]] + ToClose(ms[1..])
  }

  /** The last phase announced. */
  function PhaseAfter(start: Option<Phase>, ms: seq<Message>): Option<Phase> {
    if ms == [] then start
    else if ms[|ms| - 1].PhaseIs? then Some(ms[|ms| - 1].phase)
    else PhaseAfter(start, ms[..|ms| - 1])
  }

  predicate Trimmed(f: LogFrame, since: Option<nat>) { since.Some? && f.seqNo <= since.value }

  function EventFor(m: Message, phase: Option<Phase>): Event {
    match m
    case PhaseIs(p) => PhaseEvent(p)
    case OneFrame(f) => FrameEvent(f, phase)
    case Lag(n) => LaggedEvent(n)
    case Outcome(o) => TerminalEvent(o)
    case CutOff(r) => TruncatedEvent(r)
    case Malformed(e) => TruncatedEvent("malformed upstream frame: " + e)
  }

  function EventsFor(m: Message, phase: Option<Phase>, since: Option<nat>): seq<Event> {
    if m.OneFrame? && Trimmed(m.frame, since) then [] else [EventFor(m, phase)]
  }

  function Events(start: Option<Phase>, ms: seq<Message>, since: Option<nat>): seq<Event> {
    if ms == [] then []
    else
      var init := ms[..|ms| - 1];
      Events(start, init, since) + EventsFor(ms[|ms| - 1], PhaseAfter(start, init), since)
  }

  function Ending(end: End): Event {
    match end
    case Eof => TruncatedEvent("upstream closed without terminal")
    case Broken(e) => TruncatedEvent("upstream stream error: " + e)
  }

  predicate EndsClosed(ms: seq<Message>) { ms != [] && ms[|ms| - 1].Closes() }

  /** What a stream of messages comes to, given how the body ended. */
  function Answer(start: Option<Phase>, ms: seq<Message>, end: End, since: Option<nat>): seq<Event> {
    Events(start, ToClose(ms), since) + if EndsClosed(ToClose(ms)) then [] else [Ending(end)]
  }

  /** The events of a whole body, from its bytes and how it ended. */
  function Batch(parse: Parser, start: Option<Phase>, bytes: seq<Byte>, end: End, since: Option<nat>): seq<Event> {
    Answer(start, Parsed(parse, Lines(bytes)), end, since)
  }

  /** The body's bytes, up to a transport error. */
  function BytesOf(items: seq<Item>): seq<Byte> {
    if items == [] || items[0].IoError? then [] else items[0].bytes + BytesOf(items[1..])
  }

  function EndOf(items: seq<Item>): End {
    if items == [] then Eof else if items[0].IoError? then Broken(items[0].message) else EndOf(items[1..])
  }

  // ---- unfolding the batch meaning from the front -------------------------------------------------------

  lemma {:induction false} PhaseAfterCons(start: Option<Phase>, m: Message, ms: seq<Message>)
    ensures PhaseAfter(start, [m] + ms) == PhaseAfter(if m.PhaseIs? then Some(m.phase) else start, ms)
    decreases |ms|
  {
    var all := [m] + ms;
    if ms == [] {
      assert all[..|all| - 1] == [];
    } else {
      assert all[..|all| - 1] == [m] + ms[..|ms| - 1];
      PhaseAfterCons(start, m, ms[..|ms| - 1]);
    }
  }

  lemma {:induction false} EventsCons(start: Option<Phase>, m: Message, ms: seq<Message>, since: Option<nat>)
    ensures Events(start, [m] + ms, since) ==
            EventsFor(m, start, since) + Events(if m.PhaseIs? then Some(m.phase) else start, ms, since)
    decreases |ms|
  {
    hide EventsFor;
    var all := [m] + ms;
    if ms == [] {
      assert all[..|all| - 1] == [];
    } else {
      assert all[..|all| - 1] == [m] + ms[..|ms| - 1];
      EventsCons(start, m, ms[..|ms| - 1], since);
      PhaseAfterCons(start, m, ms[..|ms| - 1]);
    }
  }

  lemma AnswerCons(start: Option<Phase>, m: Message, ms: seq<Message>, end: End, since: Option<nat>)
    ensures Answer(start, [m] + ms, end, since) ==
            EventsFor(m, start, since) +
            if m.Closes() then [] else Answer(if m.PhaseIs? then Some(m.phase) else start, ms, end, since)
  {
    hide EventsFor;
    assert ([m] + ms)[1..] == ms;
    if m.Closes() {
      EventsCons(start, m, [], since);
      assert [m] + [] == [m];
    } else {
      hide Events;
      assert ToClose([m] + ms) == [m] + ToClose(ms);
      EventsCons(start, m, ToClose(ms), since);
      assert EndsClosed([m] + ToClose(ms)) == EndsClosed(ToClose(ms));
    }
  }

  lemma LinesFirst(parse: Parser, bytes: seq<Byte>, nl: nat)
    requires FirstNewline(bytes) == Some(nl)
    ensures nl == 0 ==> Parsed(parse, Lines(bytes)) == Parsed(parse, Lines(bytes[1..]))
    ensures nl > 0 ==> Parsed(parse, Lines(bytes)) == [parse(bytes[..nl])] + Parsed(parse, Lines(bytes[nl + 1..]))
  {
    hide Parsed, FirstNewline, Lines;
    var line, rest := bytes[..nl], bytes[nl + 1..];
    LinesSplit(bytes);
    ParsedCons(parse, line, Lines(rest));
    if nl == 0 { assert line == [] && rest == bytes[1..]; } else { assert line != []; }
  }

  lemma ParsedCons(parse: Parser, line: seq<Byte>, lines: seq<seq<Byte>>)
    ensures Parsed(parse, [line] + lines) == if line == [] then Parsed(parse, lines) else [parse(line)] + Parsed(parse, lines)
  {
    assert ([line] + lines)[1..] == lines;
    assert [] + Parsed(parse, lines) == Parsed(parse, lines);
  }

  /** No complete line left: only the ending is owed. */
  lemma BatchNoLine(parse: Parser, phase: Option<Phase>, bytes: seq<Byte>, end: End, since: Option<nat>)
    requires FirstNewline(bytes).None?
    ensures Batch(parse, phase, bytes, end, since) == [Ending(end)]
  {}

  lemma BatchLine(parse: Parser, phase: Option<Phase>, bytes: seq<Byte>, nl: nat, end: End, since: Option<nat>)
    requires FirstNewline(bytes) == Some(nl)
    ensures nl == 0 ==> Batch(parse, phase, bytes, end, since) == Batch(parse, phase, bytes[1..], end, since)
    ensures nl > 0 ==>
              var m := parse(bytes[..nl]);
              Batch(parse, phase, bytes, end, since) ==
              EventsFor(m, phase, since) +
              if m.Closes() then []
              else Batch(parse, if m.PhaseIs? then Some(m.phase) else phase, bytes[nl + 1..], end, since)
  {
    hide Lines, Parsed, Answer;
    LinesFirst(parse, bytes, nl);
    if nl > 0 { AnswerCons(phase, parse(bytes[..nl]), Parsed(parse, Lines(bytes[nl + 1..])), end, since); }
  }

  lemma {:induction false} FirstNewlineStays(a: seq<Byte>, b: seq<Byte>)
    requires FirstNewline(a).Some?
    ensures FirstNewline(a + b) == FirstNewline(a)
  {
    if a[0] != NEWLINE {
      assert (a + b)[1..] == a[1..] + b;
      FirstNewlineStays(a[1..], b);
    }
  }

  // ---- the adapter ------------------------------------------------------------------------------------

  /** One line of the inner loop: the events to yield, the phase from then on, and whether to return. */
  method HandleLine(parse: Parser, line: seq<Byte>, phase: Option<Phase>, since: Option<nat>)
    returns (events: seq<Event>, phase': Option<Phase>, stop: bool)
    ensures var m := parse(line);
            events == EventsFor(m, phase, since) && phase' == (if m.PhaseIs? then Some(m.phase) else phase) && stop == m.Closes()
  {
    phase', stop := phase, false;
    match parse(line)
    case PhaseIs(p) =>
      phase' := Some(p);
      events := [PhaseEvent(p)];
    case OneFrame(f) =>
      if since.Some? {
        if f.seqNo <= since.value { return [], phase, false; }
      }
      events := [FrameEvent(f, phase)];
    case Lag(n) => events := [LaggedEvent(n)];
    case Outcome(o) => events, stop := [TerminalEvent(o)], true;
    case CutOff(r) => events, stop := [TruncatedEvent(r)], true;
    case Malformed(e) => events, stop := [TruncatedEvent("malformed upstream frame: " + e)], true;
  }

  /** The buffer and what is still to come, cut at the buffer's first newline. */
  lemma CutAt(buf: seq<Byte>, more: seq<Byte>, nl: nat)
    requires FirstNewline(buf) == Some(nl)
    ensures FirstNewline(buf + more) == Some(nl)
    ensures (buf + more)[..nl] == buf[..nl] && (buf + more)[nl + 1..] == buf[nl + 1..] + more
  {
    FirstNewlineStays(buf, more);
  }

  /** One turn of the inner loop. */
  method NextLine(parse: Parser, buf: seq<Byte>, nl: nat, phase: Option<Phase>, since: Option<nat>, ghost more: seq<Byte>, ghost end: End)
    returns (events: seq<Event>, phase': Option<Phase>, stop: bool)
    requires FirstNewline(buf) == Some(nl)
    ensures Batch(parse, phase, buf + more, end, since) ==
            events + if stop then [] else Batch(parse, phase', buf[nl + 1..] + more, end, since)
  {
    CutAt(buf, more, nl);
    BatchLine(parse, phase, buf + more, nl, end, since);
    if nl == 0 { return [], phase, false; }
    events, phase', stop := HandleLine(parse, buf[..nl], phase, since);
  }

  /** `while let Some(nl) = buf.position(..)`: drain the complete lines of the buffer. */
  method DrainLines(parse: Parser, buf0: seq<Byte>, phase0: Option<Phase>, since: Option<nat>, ghost more: seq<Byte>, ghost end: End)
    returns (events: seq<Event>, buf: seq<Byte>, phase: Option<Phase>, stop: bool)
    ensures Batch(parse, phase0, buf0 + more, end, since) ==
            events + if stop then [] else Batch(parse, phase, buf + more, end, since)
    ensures !stop ==> FirstNewline(buf).None?
  {
    hide *;
    events, buf, phase, stop := [], buf0, phase0, false;
    var nl := FirstNewline(buf);
    while nl.Some?
      invariant nl == FirstNewline(buf)
      invariant Batch(parse, phase0, buf0 + more, end, since) == events + Batch(parse, phase, buf + more, end, since)
      decreases |buf|
    {
      var es: seq<Event>;
      es, phase, stop := NextLine(parse, buf, nl.value, phase, since, more, end);
      events := events + es;
      if stop { return; }
      buf := buf[nl.value + 1..];
      nl := FirstNewline(buf);
    }
  }

  /** What is still owed at item i, with the unfinished line in the buffer. */
  ghost function Owed(parse: Parser, phase: Option<Phase>, buf: seq<Byte>, items: seq<Item>, since: Option<nat>): seq<Event> {
    Batch(parse, phase, buf + BytesOf(items), EndOf(items), since)
  }

  lemma OwedAtEnd(parse: Parser, phase: Option<Phase>, buf: seq<Byte>, items: seq<Item>, since: Option<nat>)
    requires FirstNewline(buf).None? && (items == [] || items[0].IoError?)
    ensures Owed(parse, phase, buf, items, since) == [Ending(EndOf(items))]
  {
    assert buf + BytesOf(items) == buf;
    BatchNoLine(parse, phase, buf, EndOf(items), since);
  }

  lemma OwedChunk(parse: Parser, phase: Option<Phase>, buf: seq<Byte>, items: seq<Item>, since: Option<nat>)
    requires items != [] && items[0].Chunk?
    ensures Owed(parse, phase, buf, items, since) == Owed(parse, phase, buf + items[0].bytes, items[1..], since)
  {
    assert buf + (items[0].bytes + BytesOf(items[1..])) == (buf + items[0].bytes) + BytesOf(items[1..]);
  }

  /** `ndjson_to_sse`: the events depend only on the bytes of the body and on how it ended. */
  method NdjsonToSse(parse: Parser, items: seq<Item>, since: Option<nat>) returns (events: seq<Event>)
    ensures events == Batch(parse, None, BytesOf(items), EndOf(items), since)
    ensures Reports(events, Parsed(parse, Lines(BytesOf(items))), EndOf(items), since)
  {
    hide Batch, Lines, FirstNewline, Reports, Parsed;
    BatchReports(parse, BytesOf(items), EndOf(items), since);
    events := [];
    var buf: seq<Byte>, phase: Option<Phase> := [], None;
    assert items[0..] == items && buf + BytesOf(items) == BytesOf(items);
    for i := 0 to |items|
      invariant FirstNewline(buf).None?
      invariant Owed(parse, None, [], items, since) == events + Owed(parse, phase, buf, items[i..], since)
    {
      assert items[i..][1..] == items[i + 1..];
      if items[i].IoError? {
        OwedAtEnd(parse, phase, buf, items[i..], since);
        return events + [TruncatedEvent("upstream stream error: " + items[i].message)];
      }
      OwedChunk(parse, phase, buf, items[i..], since);
      var es: seq<Event>, stop: bool;
      es, buf, phase, stop := DrainLines(parse, buf + items[i].bytes, phase, since, BytesOf(items[i + 1..]), EndOf(items[i + 1..]));
      events := events + es;
      if stop { return; }
    }
    OwedAtEnd(parse, phase, buf, items[|items|..], since);
    events := events + [TruncatedEvent("upstream closed without terminal")];
  }

  // ---- chunk independence ----------------------------------------------------------------------------------

  lemma {:induction false} BytesOfJoin(a: seq<Item>, b: seq<Item>)
    requires forall i | 0 <= i < |a| :: a[i].Chunk?
    ensures BytesOf(a + b) == BytesOf(a) + BytesOf(b) && EndOf(a + b) == EndOf(b)
  {
    if a == [] {
      assert a + b == b;
    } else {
      assert (a + b)[1..] == a[1..] + b;
      BytesOfJoin(a[1..], b);
    }
  }

  /** Wherever the transport cuts the bytes, the browser sees the same events. */
  lemma CutAnywhere(parse: Parser, a: seq<Item>, x: seq<Byte>, y: seq<Byte>, b: seq<Item>, since: Option<nat>)
    requires forall i | 0 <= i < |a| :: a[i].Chunk?
    ensures var one, two := a + ([Chunk(x + y)] + b), a + ([Chunk(x), Chunk(y)] + b);
            Batch(parse, None, BytesOf(one), EndOf(one), since) == Batch(parse, None, BytesOf(two), EndOf(two), since)
  {
    hide Batch;
    BytesOfJoin(a, [Chunk(x + y)] + b);
    BytesOfJoin(a, [Chunk(x), Chunk(y)] + b);
    BytesOfJoin([Chunk(x + y)], b);
    BytesOfJoin([Chunk(x), Chunk(y)], b);
    assert [Chunk(x), Chunk(y)][1..] == [Chunk(y)] && [Chunk(y)][1..] == [] && [Chunk(x + y)][1..] == [];
    assert BytesOf([Chunk(x), Chunk(y)]) == x + y == BytesOf([Chunk(x + y)]);
  }

  // ---- one closing event, last ------------------------------------------------------------------------------

  predicate NoneCloses(es: seq<Event>) { forall i | 0 <= i < |es| :: !es[i].Closes() }

  lemma {:induction false} OpenMessagesOpenEvents(start: Option<Phase>, ms: seq<Message>, since: Option<nat>)
    requires forall i | 0 <= i < |ms| :: !ms[i].Closes()
    ensures NoneCloses(Events(start, ms, since))
    decreases |ms|
  {
    if ms != [] { OpenMessagesOpenEvents(start, ms[..|ms| - 1], since); }
  }

  lemma {:induction false} ToCloseShape(ms: seq<Message>)
    ensures forall i | 0 <= i < |ToClose(ms)| - 1 :: !ToClose(ms)[i].Closes()
  {
    if ms != [] && !ms[0].Closes() { ToCloseShape(ms[1..]); }
  }

  /** Every finite body yields exactly one closing event, as its last. */
  lemma ExactlyOneClosing(parse: Parser, bytes: seq<Byte>, end: End, since: Option<nat>)
    ensures var es := Batch(parse, None, bytes, end, since);
            es != [] && es[|es| - 1].Closes() && NoneCloses(es[..|es| - 1])
  {
    var ms := ToClose(Parsed(parse, Lines(bytes)));
    ToCloseShape(Parsed(parse, Lines(bytes)));
    hide Lines, Parsed, ToClose, PhaseAfter;
    var es := Batch(parse, None, bytes, end, since);
    if EndsClosed(ms) {
      var init := ms[..|ms| - 1];
      OpenMessagesOpenEvents(None, init, since);
      assert es == Events(None, init, since) + EventsFor(ms[|ms| - 1], PhaseAfter(None, init), since);
      assert es[..|es| - 1] == Events(None, init, since);
    } else {
      OpenMessagesOpenEvents(None, ms, since);
      assert es[..|es| - 1] == Events(None, ms, since);
    }
  }

  // ---- the daemon's lines come through -------------------------------------------------------------------------

  /** The body for these lines: each followed by a newline. */
  function Framed(lines: seq<seq<Byte>>): seq<Byte> {
    if lines == [] then [] else lines[0] + [NEWLINE] + Framed(lines[1..])
  }

  lemma {:induction false} NewlineAfter(line: seq<Byte>, rest: seq<Byte>)
    requires NEWLINE !in line
    ensures FirstNewline(line + [NEWLINE] + rest) == Some(|line|)
  {
    var all := line + [NEWLINE] + rest;
    if line != [] {
      assert line[0] in line;
      assert all[1..] == line[1..] + [NEWLINE] + rest;
      NewlineAfter(line[1..], rest);
    }
  }

  /** Splitting undoes framing, for lines without a newline byte. */
  lemma {:induction false} LinesOfFramed(lines: seq<seq<Byte>>)
    requires forall i | 0 <= i < |lines| :: NEWLINE !in lines[i]
    ensures Lines(Framed(lines)) == lines
  {
    if lines != [] {
      var rest := Framed(lines[1..]);
      NewlineAfter(lines[0], rest);
      LinesOfFramed(lines[1..]);
      var all := lines[0] + [NEWLINE] + rest;
      assert all[..|lines[0]|] == lines[0] && all[|lines[0]| + 1..] == rest;
    }
  }

  function Encoded(encode: Message -> seq<Byte>, ms: seq<Message>): seq<seq<Byte>> {
    seq(|ms|, i requires 0 <= i < |ms| => encode(ms[i]))
  }

  /** An encoding the parser understands, on one non-empty line a message. A rejected line is not a message
      anyone encodes. */
  ghost predicate Codec(encode: Message -> seq<Byte>, parse: Parser) {
    forall m: Message | !m.Malformed? :: parse(encode(m)) == m && NEWLINE !in encode(m) && encode(m) != []
  }

  predicate WellFormed(ms: seq<Message>) { forall i | 0 <= i < |ms| :: !ms[i].Malformed? }

  lemma {:induction false} ParsedEncoded(encode: Message -> seq<Byte>, parse: Parser, ms: seq<Message>)
    requires Codec(encode, parse) && WellFormed(ms)
    ensures Parsed(parse, Encoded(encode, ms)) == ms
  {
    if ms != [] {
      assert Encoded(encode, ms)[1..] == Encoded(encode, ms[1..]);
      ParsedEncoded(encode, parse, ms[1..]);
      assert parse(encode(ms[0])) == ms[0];
    }
  }

  /** End to end: what the daemon streams, framed and cut into chunks in any way, reaches the browser as the
      events of those messages. */
  lemma FramingRoundTrip(encode: Message -> seq<Byte>, parse: Parser, ms: seq<Message>, end: End, since: Option<nat>)
    requires Codec(encode, parse) && WellFormed(ms)
    ensures Batch(parse, None, Framed(Encoded(encode, ms)), end, since) == Answer(None, ms, end, since)
  {
    LinesOfFramed(Encoded(encode, ms));
    ParsedEncoded(encode, parse, ms);
  }

  // ---- what the events tell ---------------------------------------------------------------------------------

  /** The body is the bytes of the chunks before the first transport error, and ends with that error or at its end. */
  lemma BodyMeaning(a: seq<Item>, b: seq<Item>, x: seq<Byte>, message: string)
    requires forall i | 0 <= i < |a| :: a[i].Chunk?
    ensures BytesOf([]) == [] && BytesOf(a + [Chunk(x)]) == BytesOf(a) + x
    ensures EndOf(a) == Eof && BytesOf(a + ([IoError(message)] + b)) == BytesOf(a) && EndOf(a + ([IoError(message)] + b)) == Broken(message)
  {
    BytesOfJoin(a, [Chunk(x)]);
    BytesOfJoin(a, [IoError(message)] + b);
    BytesOfJoin(a, []);
    assert a + [] == a;
    assert [Chunk(x)][1..] == [];
    assert BytesOf([Chunk(x)]) == x + BytesOf([]);
  }

  /** A body is its lines, each with its newline, and a rest without one that is not a line. */
  lemma {:induction false} LinesMeaning(bytes: seq<Byte>) returns (rest: seq<Byte>)
    ensures bytes == Framed(Lines(bytes)) + rest && NEWLINE !in rest
    ensures forall i | 0 <= i < |Lines(bytes)| :: NEWLINE !in Lines(bytes)[i]
    decreases |bytes|
  {
    hide *;
    var nl := FirstNewline(bytes);
    LinesSplit(bytes);
    if nl.None? {
      rest := bytes;
      assert NEWLINE !in bytes;
      FramedNothing(bytes);
    } else {
      var line, more := bytes[..nl.value], bytes[nl.value + 1..];
      rest := LinesMeaning(more);
      assert NEWLINE !in line;
      FramedCons(line, Lines(more));
      CutLine(bytes, nl.value);
      assert line + [NEWLINE] + (Framed(Lines(more)) + rest) == (line + [NEWLINE] + Framed(Lines(more))) + rest;
    }
  }

  lemma LinesSplit(bytes: seq<Byte>)
    ensures var nl := FirstNewline(bytes);
            Lines(bytes) == if nl.None? then [] else [bytes[..nl.value]] + Lines(bytes[nl.value + 1..])
  {
    hide FirstNewline;
  }

  lemma FramedNothing(bytes: seq<Byte>)
    ensures Framed([]) + bytes == bytes
  {}

  lemma FramedCons(line: seq<Byte>, lines: seq<seq<Byte>>)
    ensures Framed([line] + lines) == line + [NEWLINE] + Framed(lines)
  {
    assert ([line] + lines)[1..] == lines;
  }

  lemma CutLine(bytes: seq<Byte>, n: nat)
    requires n < |bytes| && bytes[n] == NEWLINE
    ensures bytes == bytes[..n] + [NEWLINE] + bytes[n + 1..]
  {}

  function NonEmpty(lines: seq<seq<Byte>>): seq<seq<Byte>> {
    if lines == [] then [] else (if |lines[0]| > 0 then [lines[0]] else []) + NonEmpty(lines[1..])
  }

  /** One message a line, except that empty lines say nothing. */
  lemma {:induction false} ParsedMeaning(parse: Parser, lines: seq<seq<Byte>>)
    ensures |Parsed(parse, lines)| == |NonEmpty(lines)|
    ensures forall i | 0 <= i < |NonEmpty(lines)| :: Parsed(parse, lines)[i] == parse(NonEmpty(lines)[i])
  {
    if lines != [] { ParsedMeaning(parse, lines[1..]); }
  }

  /** Nothing is heard after the first message that closes, and everything before it is. */
  lemma {:induction false} ToCloseMeaning(ms: seq<Message>)
    ensures ToClose(ms) <= ms && (ToClose(ms) == ms || EndsClosed(ToClose(ms)))
    ensures forall i | 0 <= i < |ToClose(ms)| - 1 :: !ToClose(ms)[i].Closes()
  {
    if ms != [] && !ms[0].Closes() {
      ToCloseMeaning(ms[1..]);
      assert ms == [ms[0]] + ms[1..];
    }
  }

  /** The event carries what the message carries. */
  predicate Says(m: Message, e: Event) {
    match m
    case PhaseIs(phase) => e == PhaseEvent(phase)
    case OneFrame(frame) => e.FrameEvent? && e.frame == frame
    case Lag(missed) => e == LaggedEvent(missed)
    case Outcome(outcome) => e == TerminalEvent(outcome)
    case CutOff(reason) => e == TruncatedEvent(reason)
    case Malformed(error) => e == TruncatedEvent("malformed upstream frame: " + error)
  }

  /** The phase a message falls into: the one announced last before it, if any was. */
  ghost predicate FallsInto(ms: seq<Message>, i: nat, phase: Option<Phase>)
    requires i <= |ms|
  {
    match phase
    case None => forall k | 0 <= k < i :: !ms[k].PhaseIs?
    case Some(p) => exists k :: 0 <= k < i && ms[k] == PhaseIs(p) && forall l | k < l < i :: !ms[l].PhaseIs?
  }

  lemma FallsOn(ms: seq<Message>, m: Message, phase: Option<Phase>)
    requires FallsInto(ms, |ms|, phase) && !m.PhaseIs?
    ensures FallsInto(ms + [m], |ms| + 1, phase)
  {
    var more := ms + [m];
    match phase
    case None =>
    case Some(p) =>
      var k :| 0 <= k < |ms| && ms[k] == PhaseIs(p) && forall l | k < l < |ms| :: !ms[l].PhaseIs?;
      assert more[k] == ms[k];
      assert forall l | k < l < |ms| + 1 :: !more[l].PhaseIs?;
  }

  lemma FallsNow(ms: seq<Message>, p: Phase)
    ensures FallsInto(ms + [PhaseIs(p)], |ms| + 1, Some(p))
  {
    assert (ms + [PhaseIs(p)])[|ms|] == PhaseIs(p);
  }

  lemma {:induction false} PhaseAfterMeaning(ms: seq<Message>)
    ensures FallsInto(ms, |ms|, PhaseAfter(None, ms))
  {
    if ms != [] {
      hide FallsInto;
      var init, m := ms[..|ms| - 1], ms[|ms| - 1];
      assert ms == init + [m];
      if m.PhaseIs? {
        FallsNow(init, m.phase);
      } else {
        PhaseAfterMeaning(init);
        FallsOn(init, m, PhaseAfter(None, init));
      }
    }
  }

  lemma FallsAsBefore(ms: seq<Message>, m: Message, i: nat, phase: Option<Phase>)
    requires i <= |ms| && FallsInto(ms, i, phase)
    ensures FallsInto(ms + [m], i, phase)
  {
    var more := ms + [m];
    match phase
    case None =>
    case Some(p) =>
      var k :| 0 <= k < i && ms[k] == PhaseIs(p) && forall l | k < l < i :: !ms[l].PhaseIs?;
      assert more[k] == ms[k];
      assert forall l | k < l < i :: !more[l].PhaseIs?;
  }

  /** Message by message: what each event says, and the phase each frame is tagged with. */
  ghost predicate ToldInOrder(ms: seq<Message>, es: seq<Event>) {
    |es| == |ms| && forall i | 0 <= i < |ms| :: Says(ms[i], es[i]) && (ms[i].OneFrame? ==> FallsInto(ms, i, es[i].during))
  }

  lemma {:induction false} EventsMeaning(ms: seq<Message>)
    ensures ToldInOrder(ms, Events(None, ms, None))
  {
    hide FallsInto, PhaseAfter;
    if ms != [] {
      var init, m := ms[..|ms| - 1], ms[|ms| - 1];
      EventsMeaning(init);
      PhaseAfterMeaning(init);
      var es, phase := Events(None, init, None), PhaseAfter(None, init);
      assert Events(None, ms, None) == es + [EventFor(m, phase)];
      assert ms == init + [m];
      FallsAsBefore(init, m, |init|, phase);
      forall i | 0 <= i < |init| && ms[i].OneFrame? ensures FallsInto(ms, i, es[i].during) {
        assert ms[i] == init[i];
        FallsAsBefore(init, m, i, es[i].during);
      }
    }
  }

  /** The events without the frames a client already has. */
  function Untrimmed(es: seq<Event>, since: Option<nat>): seq<Event> {
    if es == [] then []
    else
      var e := es[|es| - 1];
      Untrimmed(es[..|es| - 1], since)
      + if e.FrameEvent? && since.Some? && e.frame.seqNo <= since.value then [] else [e]
  }

  lemma {:induction false} TrimIsFilter(ms: seq<Message>, since: Option<nat>)
    ensures Events(None, ms, since) == Untrimmed(Events(None, ms, None), since)
  {
    if ms != [] {
      var init, m := ms[..|ms| - 1], ms[|ms| - 1];
      TrimIsFilter(init, since);
      var full, e := Events(None, init, None), EventFor(m, PhaseAfter(None, init));
      assert Events(None, ms, None) == full + [e] && (full + [e])[..|full|] == full;
    }
  }

  /** What the browser is told: the messages up to the first that closes, each by its own event, frames tagged with
      their phase, less the frames up to `since`; and if none closes, how the body ended. */
  ghost predicate Reports(events: seq<Event>, ms: seq<Message>, end: End, since: Option<nat>) {
    var heard := ToClose(ms);
    exists told :: ToldInOrder(heard, told) && events == Untrimmed(told, since) + Notice(heard, end)
  }

  function Notice(heard: seq<Message>, end: End): seq<Event> {
    if heard != [] && heard[|heard| - 1].Closes() then []
    else [TruncatedEvent(match end
                         case Eof => "upstream closed without terminal"
                         case Broken(message) => "upstream stream error: " + message)]
  }

  lemma BatchReports(parse: Parser, bytes: seq<Byte>, end: End, since: Option<nat>)
    ensures Reports(Batch(parse, None, bytes, end, since), Parsed(parse, Lines(bytes)), end, since)
  {
    hide Lines, Parsed, ToClose, ToldInOrder, Untrimmed;
    var heard := ToClose(Parsed(parse, Lines(bytes)));
    EventsMeaning(heard);
    TrimIsFilter(heard, since);
    assert Batch(parse, None, bytes, end, since) == Untrimmed(Events(None, heard, None), since) + Notice(heard, end);
  }

  /** A job's outcome reaches the browser, last, exactly if it is what the body's messages close with. */
  lemma OutcomeArrives(parse: Parser, bytes: seq<Byte>, end: End, since: Option<nat>, o: JobOutcome)
    ensures var es, heard := Batch(parse, None, bytes, end, since), ToClose(Parsed(parse, Lines(bytes)));
            es != [] && (es[|es| - 1] == TerminalEvent(o) <==> heard != [] && heard[|heard| - 1] == Message.Outcome(o))
  {
    hide Lines, Parsed, ToClose, PhaseAfter, Events;
    var heard := ToClose(Parsed(parse, Lines(bytes)));
    if EndsClosed(heard) { EventsMore(None, heard, since); }
  }

  // ---- the since_seq trim ----------------------------------------------------------------------------------------

  function FramesOfEvents(es: seq<Event>): seq<LogFrame> {
    if es == [] then []
    else FramesOfEvents(es[..|es| - 1]) + if es[|es| - 1].FrameEvent? then [es[|es| - 1].frame] else []
  }

  function NotFrames(es: seq<Event>): seq<Event> {
    if es == [] then [] else NotFrames(es[..|es| - 1]) + if es[|es| - 1].FrameEvent? then [] else [es[|es| - 1]]
  }

  /** What a client that was seeded shows after these events. */
  function Shown(seed: seq<LogFrame>, es: seq<Event>): seq<LogFrame> { ClientLog(seed, FramesOfEvents(es)) }

  lemma ShownMore(seed: seq<LogFrame>, es: seq<Event>, e: Event)
    ensures Shown(seed, es + [e]) == if e.FrameEvent? then ClientStep(Shown(seed, es), e.frame) else Shown(seed, es)
    ensures NotFrames(es + [e]) == if e.FrameEvent? then NotFrames(es) else NotFrames(es) + [e]
  {
    hide ClientStep;
    assert (es + [e])[..|es + [e]| - 1] == es;
    if e.FrameEvent? {
      var frames := FramesOfEvents(es);
      assert FramesOfEvents(es + [e]) == frames + [e.frame];
      assert (frames + [e.frame])[..|frames + [e.frame]| - 1] == frames;
    } else {
      assert FramesOfEvents(es + [e]) == FramesOfEvents(es);
    }
  }

  lemma EventsMore(start: Option<Phase>, ms: seq<Message>, since: Option<nat>)
    requires ms != []
    ensures var init, m := ms[..|ms| - 1], ms[|ms| - 1];
            Events(start, ms, since) ==
            if m.OneFrame? && Trimmed(m.frame, since) then Events(start, init, since)
            else Events(start, init, since) + [EventFor(m, PhaseAfter(start, init))]
  {
    hide PhaseAfter;
  }

  /** A client seeded up to `since` shows the same log whether or not the proxy trims, and everything that is
      not a frame is the same event for event. */
  lemma {:induction false} TrimInvisible(seed: seq<LogFrame>, start: Option<Phase>, ms: seq<Message>)
    requires SeqOrdered(seed) && seed != []
    ensures var since := Some(seed[|seed| - 1].seqNo);
            var trimmed, full := Events(start, ms, since), Events(start, ms, None);
            Shown(seed, trimmed) == Shown(seed, full) && NotFrames(trimmed) == NotFrames(full)
    decreases |ms|
  {
    if ms != [] {
      var since := Some(seed[|seed| - 1].seqNo);
      var init, m := ms[..|ms| - 1], ms[|ms| - 1];
      var e := EventFor(m, PhaseAfter(start, init));
      TrimInvisible(seed, start, init);
      hide Events, Shown, NotFrames, EventsFor, PhaseAfter;
      EventsMore(start, ms, since);
      EventsMore(start, ms, None);
      ShownMore(seed, Events(start, init, since), e);
      ShownMore(seed, Events(start, init, None), e);
      if m.OneFrame? && Trimmed(m.frame, since) { AlreadyShown(seed, Events(start, init, None), m.frame); }
    }
  }

  /** The client itself ignores what the proxy would trim. */
  lemma AlreadyShown(seed: seq<LogFrame>, es: seq<Event>, f: LogFrame)
    requires SeqOrdered(seed) && seed != [] && f.seqNo <= seed[|seed| - 1].seqNo
    ensures ClientStep(Shown(seed, es), f) == Shown(seed, es)
  {
    ClientOrdered(seed, FramesOfEvents(es));
  }

  /** The page's two requests together: history first, then the stream from its last key. */
  lemma TrimIsBandwidthOnly(seed: seq<LogFrame>, parse: Parser, bytes: seq<Byte>, end: End)
    requires SeqOrdered(seed) && seed != []
    ensures var since := Some(seed[|seed| - 1].seqNo);
            var trimmed, full := Batch(parse, None, bytes, end, since), Batch(parse, None, bytes, end, None);
            Shown(seed, trimmed) == Shown(seed, full) && NotFrames(trimmed) == NotFrames(full)
  {
    hide Events, Shown, NotFrames, Lines, Parsed, ToClose;
    var since := Some(seed[|seed| - 1].seqNo);
    var ms := ToClose(Parsed(parse, Lines(bytes)));
    TrimInvisible(seed, None, ms);
    var trimmed, full := Events(None, ms, since), Events(None, ms, None);
    if EndsClosed(ms) {
      assert trimmed + [] == trimmed && full + [] == full;
    } else {
      ShownMore(seed, trimmed, Ending(end));
      ShownMore(seed, full, Ending(end));
    }
  }
}
