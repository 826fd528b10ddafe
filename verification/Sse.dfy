/**
 The server-sent-events parser: a byte-at-a-time state machine, measured
 against a reference that splits the whole input into lines
 (section 9.2.5 of the WHATWG HTML Living Standard) and groups them.
 */
module Sse {
  import opened Prelude

  const LF: byte := 10
  const CR: byte := 13

  /** Lossy UTF-8 decoding of one line; nothing is assumed about it. */
  type Decoder = seq<byte> -> string

  /** What one line does to the pending payload, and the events it completes. */
  function Interpret(lossy: Decoder, pending: string, line: seq<byte>): (string, seq<string>) {
    if line == [] then ("", if pending == "" then [] else [pending])
    else
      var text := lossy(line);
      if ":" <= text then (pending, [])
      else if "data:" <= text then
        var rest := text[5..];
        var payload := if " " <= rest then rest[1..] else rest;
        ((if pending == "" then "" else pending + "\n") + payload, [])
      else (pending, [])
  }

  // ------------------------------------------------------------------
  // The reference.
  // ------------------------------------------------------------------

  predicate IsTerminator(b: byte) {
    b == CR || b == LF
  }

  /** Where the first line ends: its terminator, or the end of the input. */
  function LineEnd(input: seq<byte>): (i: nat)
    ensures i <= |input|
    ensures forall k :: 0 <= k < i ==> !IsTerminator(input[k])
    ensures i < |input| ==> IsTerminator(input[i])
  {
    if input == [] || IsTerminator(input[0]) then 0 else 1 + LineEnd(input[1..])
  }

  function DropLf(input: seq<byte>): seq<byte> {
    if input != [] && input[0] == LF then input[1..] else input
  }

  /** What follows the terminator at `i`; CR LF is one terminator. */
  function AfterTerminator(input: seq<byte>, i: nat): seq<byte>
    requires i < |input|
  {
    if input[i] == CR then DropLf(input[i + 1..]) else input[i + 1..]
  }

  /** The terminated lines of the input; an unfinished last line is not one. */
  function SplitLines(input: seq<byte>): seq<seq<byte>>
    decreases |input|
  {
    var i := LineEnd(input);
    if i == |input| then [] else [input[..i]] + SplitLines(AfterTerminator(input, i))
  }

  function Group(lossy: Decoder, pending: string, lines: seq<seq<byte>>): (string, seq<string>)
    decreases |lines|
  {
    if lines == [] then (pending, [])
    else
      var (next, events) := Interpret(lossy, pending, lines[0]);
      var (last, more) := Group(lossy, next, lines[1..]);
      (last, events + more)
  }

  /** The payloads of every event completed by the input. */
  function Reference(lossy: Decoder, input: seq<byte>): seq<string> {
    Group(lossy, "", SplitLines(input)).1
  }

  // ------------------------------------------------------------------
  // The parser.
  // ------------------------------------------------------------------

  datatype State = State(line: seq<byte>, pending: string, completed: seq<string>, sawCr: bool)

  const FRESH := State([], "", [], false)

  function FlushLine(lossy: Decoder, p: State): State {
    var (pending, events) := Interpret(lossy, p.pending, p.line);
    State([], pending, p.completed + events, p.sawCr)
  }

  function FeedByte(lossy: Decoder, p: State, b: byte): State {
    if b == LF then
      (if p.sawCr then p.(sawCr := false) else FlushLine(lossy, p))
    else if p.sawCr then
      (if b == CR then FlushLine(lossy, p.(sawCr := false))
       else p.(sawCr := false, line := p.line + [b]))
    else if b == CR then FlushLine(lossy, p.(sawCr := true))
    else p.(line := p.line + [b])
  }

  function FeedAll(lossy: Decoder, p: State, bytes: seq<byte>): State
    decreases |bytes|
  {
    if bytes == [] then p else FeedAll(lossy, FeedByte(lossy, p, bytes[0]), bytes[1..])
  }

  class SseParser {
    const lossy: Decoder
    var lineBuffer: seq<byte>
    var pendingData: string
    var completed: seq<string>
    var sawCr: bool

    ghost function View(): State
      reads this
    {
      State(lineBuffer, pendingData, completed, sawCr)
    }

    constructor (lossy: Decoder)
      ensures View() == FRESH && this.lossy == lossy
    {
      this.lossy := lossy;
      lineBuffer, pendingData, completed, sawCr := [], "", [], false;
    }

    method Feed(chunk: seq<byte>)
      modifies this
      ensures View() == FeedAll(lossy, old(View()), chunk)
    {
      ghost var initial := View();
      for i := 0 to |chunk|
        invariant FeedAll(lossy, View(), chunk[i..]) == FeedAll(lossy, initial, chunk)
      {
        ghost var before := View();
        assert chunk[i..][0] == chunk[i] && chunk[i..][1..] == chunk[i + 1..];
        var b := chunk[i];
        if b == LF && sawCr {
          sawCr := false;
        } else if b == LF {
          FlushLineBuffer();
        } else if sawCr {
          sawCr := false;
          if b == CR {
            FlushLineBuffer();
          } else {
            lineBuffer := lineBuffer + [b];
          }
        } else if b == CR {
          sawCr := true;
          FlushLineBuffer();
        } else {
          lineBuffer := lineBuffer + [b];
        }
        assert View() == FeedByte(lossy, before, b);
      }
    }

    method NextEvent() returns (event: Option<string>)
      modifies this`completed
      ensures if old(completed) == [] then event == None && completed == []
              else event == Some(old(completed)[0]) && completed == old(completed)[1..]
    {
      if completed == [] {
        return None;
      }
      event := Some(completed[0]);
      completed := completed[1..];
    }

    method FlushLineBuffer()
      modifies this
      ensures View() == FlushLine(lossy, old(View()))
    {
      var raw := lineBuffer;
      lineBuffer := [];
      if raw == [] {
        if pendingData != "" {
          completed := completed + [pendingData];
          pendingData := "";
        }
        return;
      }
      var line := lossy(raw);
      if ":" <= line {
        return;
      }
      if "data:" <= line {
        var rest := line[5..];
        var payload := if " " <= rest then rest[1..] else rest;
        if pendingData != "" {
          pendingData := pendingData + "\n";
        }
        pendingData := pendingData + payload;
      }
    }
  }

  // ------------------------------------------------------------------
  // The parser computes the reference, however the bytes are chunked.
  // ------------------------------------------------------------------

  lemma {:induction false} FeedConcat(lossy: Decoder, p: State, a: seq<byte>, b: seq<byte>)
    ensures FeedAll(lossy, p, a + b) == FeedAll(lossy, FeedAll(lossy, p, a), b)
    decreases |a|
  {
    if a == [] {
      assert a + b == b;
    } else {
      assert (a + b)[1..] == a[1..] + b;
      FeedConcat(lossy, FeedByte(lossy, p, a[0]), a[1..], b);
    }
  }

  predicate Unterminated(line: seq<byte>) {
    forall b <- line :: !IsTerminator(b)
  }

  lemma {:induction false} SplitAt(line: seq<byte>, t: byte, rest: seq<byte>)
    requires Unterminated(line) && IsTerminator(t)
    ensures SplitLines(line + [t] + rest) == [line] + SplitLines(if t == CR then DropLf(rest) else rest)
  {
    var input := line + [t] + rest;
    assert input[|line|] == t;
    assert forall k :: 0 <= k < |line| ==> input[k] in line;
    assert LineEnd(input) == |line|;
    assert input[..|line|] == line && input[|line| + 1..] == rest;
  }

  lemma {:induction false} NoLineYet(line: seq<byte>)
    requires Unterminated(line)
    ensures SplitLines(line) == []
  {
    assert forall k :: 0 <= k < |line| ==> line[k] in line;
    assert LineEnd(line) == |line|;
  }

  predicate Coherent(p: State) {
    Unterminated(p.line) && (p.sawCr ==> p.line == [])
  }

  /** The input a parser in state `p` has yet to split into lines. */
  function Remaining(p: State, input: seq<byte>): seq<byte> {
    if p.sawCr then DropLf(input) else p.line + input
  }

  lemma GroupCons(lossy: Decoder, pending: string, line: seq<byte>, rest: seq<seq<byte>>)
    ensures var (next, events) := Interpret(lossy, pending, line);
            Group(lossy, pending, [line] + rest)
            == (Group(lossy, next, rest).0, events + Group(lossy, next, rest).1)
  {
    assert ([line] + rest)[1..] == rest;
  }

  /** With nothing pending, a blank line is not observable: this is the extra
      line the parser flushes on CR CR LF. */
  lemma {:induction false} BlankStutters(lossy: Decoder, input: seq<byte>)
    ensures Group(lossy, "", SplitLines(DropLf(input))) == Group(lossy, "", SplitLines(input))
  {
    if input != [] && input[0] == LF {
      SplitAt([], LF, input[1..]);
      assert [] + [LF] + input[1..] == input;
      var lines := SplitLines(input[1..]);
      GroupCons(lossy, "", [], lines);
      assert [] + Group(lossy, "", lines).1 == Group(lossy, "", lines).1;
    }
  }

  /** What the reference makes of the rest of the input from state `p` on. */
  function Outcome(lossy: Decoder, p: State, input: seq<byte>): (string, seq<string>) {
    Group(lossy, p.pending, SplitLines(Remaining(p, input)))
  }

  /** Flushing the line buffer is what grouping does with that line. */
  lemma {:induction false} FlushSimulates(lossy: Decoder, p: State, lines: seq<seq<byte>>)
    ensures var q := FlushLine(lossy, p);
            && q.line == [] && q.sawCr == p.sawCr
            && Group(lossy, p.pending, [p.line] + lines).0 == Group(lossy, q.pending, lines).0
            && p.completed + Group(lossy, p.pending, [p.line] + lines).1
               == q.completed + Group(lossy, q.pending, lines).1
            && (p.line == [] ==> q.pending == "")
  {
    GroupCons(lossy, p.pending, p.line, lines);
    var (next, events) := Interpret(lossy, p.pending, p.line);
    var more := Group(lossy, next, lines).1;
    assert p.completed + (events + more) == p.completed + events + more;
  }

  lemma {:induction false} FeedByteSimulates(lossy: Decoder, p: State, b: byte, rest: seq<byte>)
    requires Coherent(p)
    ensures var q := FeedByte(lossy, p, b);
            && Coherent(q)
            && Outcome(lossy, p, [b] + rest).0 == Outcome(lossy, q, rest).0
            && p.completed + Outcome(lossy, p, [b] + rest).1 == q.completed + Outcome(lossy, q, rest).1
  {
    assert ([b] + rest)[1..] == rest;
    if !IsTerminator(b) || (p.sawCr && b == LF) {
      var q := FeedByte(lossy, p, b);
      assert p.line + ([b] + rest) == (p.line + [b]) + rest;
      assert [] + rest == rest;
      assert Remaining(q, rest) == Remaining(p, [b] + rest);
    } else {
      TerminatorSimulates(lossy, p, b, rest);
    }
  }

  lemma {:induction false} TerminatorSimulates(lossy: Decoder, p: State, b: byte, rest: seq<byte>)
    requires Coherent(p) && IsTerminator(b) && !(p.sawCr && b == LF)
    ensures var q := FeedByte(lossy, p, b);
            && Coherent(q)
            && Outcome(lossy, p, [b] + rest).0 == Outcome(lossy, q, rest).0
            && p.completed + Outcome(lossy, p, [b] + rest).1 == q.completed + Outcome(lossy, q, rest).1
  {
    var follow := if b == CR then DropLf(rest) else rest;
    assert Remaining(p, [b] + rest) == p.line + [b] + rest;
    SplitAt(p.line, b, rest);
    var flushed := p.(sawCr := b == CR && !p.sawCr);
    FlushSimulates(lossy, flushed, SplitLines(follow));
    var q := FeedByte(lossy, p, b);
    assert q == FlushLine(lossy, flushed);
    assert [] + rest == rest;
    if p.sawCr {
      BlankStutters(lossy, rest);
    } else {
      assert Remaining(q, rest) == follow;
    }
  }

  lemma {:induction false} FeedSimulates(lossy: Decoder, p: State, input: seq<byte>)
    requires Coherent(p)
    ensures var q := FeedAll(lossy, p, input);
            && Coherent(q)
            && q.pending == Outcome(lossy, p, input).0
            && q.completed == p.completed + Outcome(lossy, p, input).1
    decreases |input|
  {
    if input == [] {
      assert Remaining(p, input) == p.line;
      NoLineYet(p.line);
    } else {
      assert input == [input[0]] + input[1..];
      FeedByteSimulates(lossy, p, input[0], input[1..]);
      FeedSimulates(lossy, FeedByte(lossy, p, input[0]), input[1..]);
    }
  }

  datatype Op = Feed(chunk: seq<byte>) | Next

  /** The state after a schedule of calls, and the events handed out. */
  function Run(lossy: Decoder, ops: seq<Op>): (State, seq<string>) {
    if ops == [] then (FRESH, [])
    else
      var (p, taken) := Run(lossy, ops[..|ops| - 1]);
      match ops[|ops| - 1]
      case Feed(chunk) => (FeedAll(lossy, p, chunk), taken)
      case Next => if p.completed == [] then (p, taken)
                   else (p.(completed := p.completed[1..]), taken + [p.completed[0]])
  }

  function Input(ops: seq<Op>): seq<byte> {
    if ops == [] then []
    else Input(ops[..|ops| - 1]) + (if ops[|ops| - 1].Feed? then ops[|ops| - 1].chunk else [])
  }

  /** Events already queued do not influence the parser. */
  lemma {:induction false} CompletedFrame(lossy: Decoder, p: State, before: seq<string>, bytes: seq<byte>)
    ensures var q := FeedAll(lossy, p, bytes);
            FeedAll(lossy, p.(completed := before + p.completed), bytes) == q.(completed := before + q.completed)
    decreases |bytes|
  {
    if bytes != [] {
      var q := FeedByte(lossy, p, bytes[0]);
      var (_, events) := Interpret(lossy, p.pending, p.line);
      assert before + p.completed + events == before + (p.completed + events);
      assert FeedByte(lossy, p.(completed := before + p.completed), bytes[0]) == q.(completed := before + q.completed);
      CompletedFrame(lossy, q, before, bytes[1..]);
    }
  }

  lemma {:induction false} ScheduleIsIrrelevant(lossy: Decoder, ops: seq<Op>)
    ensures var (p, taken) := Run(lossy, ops);
            p.(completed := taken + p.completed) == FeedAll(lossy, FRESH, Input(ops))
    decreases |ops|
  {
    if ops != [] {
      var before, op := ops[..|ops| - 1], ops[|ops| - 1];
      ScheduleIsIrrelevant(lossy, before);
      var (p, taken) := Run(lossy, before);
      match op {
        case Feed(chunk) =>
          CompletedFrame(lossy, p, taken, chunk);
          FeedConcat(lossy, FRESH, Input(before), chunk);
        case Next =>
          assert Input(ops) == Input(before);
          if p.completed != [] {
            assert taken + [p.completed[0]] + p.completed[1..] == taken + p.completed;
          }
      }
    }
  }

  /** For every chunking of the bytes and every schedule of `feed` and
      `next_event`, the events handed out and queued are the reference's. */
  lemma {:induction false} ParsesTheReference(lossy: Decoder, ops: seq<Op>)
    ensures var (p, taken) := Run(lossy, ops);
            taken + p.completed == Reference(lossy, Input(ops))
  {
    ScheduleIsIrrelevant(lossy, ops);
    FeedSimulates(lossy, FRESH, Input(ops));
    assert [] + Input(ops) == Input(ops);
    assert [] + Reference(lossy, Input(ops)) == Reference(lossy, Input(ops));
  }

  // ------------------------------------------------------------------
  // The reference recovers the lines of any text, whatever terminates them.
  // ------------------------------------------------------------------

  datatype Terminator = Cr | Lf | CrLf

  function TerminatorBytes(t: Terminator): seq<byte> {
    match t
    case Cr => [CR]
    case Lf => [LF]
    case CrLf => [CR, LF]
  }

  function Write(lines: seq<seq<byte>>, ends: seq<Terminator>): seq<byte>
    requires |lines| == |ends|
  {
    if lines == [] then [] else lines[0] + TerminatorBytes(ends[0]) + Write(lines[1..], ends[1..])
  }

  /** A CR directly followed by an LF can only be read as one terminator. */
  predicate Unambiguous(lines: seq<seq<byte>>, ends: seq<Terminator>)
    requires |lines| == |ends|
  {
    forall i :: 0 <= i < |lines| - 1 && ends[i] == Cr && lines[i + 1] == [] ==> ends[i + 1] != Lf
  }

  lemma {:induction false} SplitTerminated(line: seq<byte>, t: Terminator, tail: seq<byte>)
    requires Unterminated(line) && (t == Cr ==> DropLf(tail) == tail)
    ensures SplitLines(line + TerminatorBytes(t) + tail) == [line] + SplitLines(tail)
  {
    if t == CrLf {
      assert line + TerminatorBytes(t) + tail == line + [CR] + ([LF] + tail);
      SplitAt(line, CR, [LF] + tail);
      assert DropLf([LF] + tail) == tail;
    } else {
      SplitAt(line, if t == Cr then CR else LF, tail);
    }
  }

  lemma {:induction false} SplitRecovers(lines: seq<seq<byte>>, ends: seq<Terminator>, last: seq<byte>)
    requires |lines| == |ends| && Unambiguous(lines, ends)
    requires (forall line <- lines :: Unterminated(line)) && Unterminated(last)
    ensures SplitLines(Write(lines, ends) + last) == lines
    decreases |lines|
  {
    if lines == [] {
      assert Write(lines, ends) + last == last;
      NoLineYet(last);
    } else {
      var line, tail := lines[0], Write(lines[1..], ends[1..]) + last;
      SplitRecovers(lines[1..], ends[1..], last);
      assert Write(lines, ends) + last == line + TerminatorBytes(ends[0]) + tail;
      if ends[0] == Cr {
        NoLeadingLf(lines, ends, last);
      }
      SplitTerminated(line, ends[0], tail);
    }
  }

  lemma {:induction false} NoLeadingLf(lines: seq<seq<byte>>, ends: seq<Terminator>, last: seq<byte>)
    requires |lines| == |ends| > 0 && ends[0] == Cr && Unambiguous(lines, ends)
    requires (forall line <- lines :: Unterminated(line)) && Unterminated(last)
    ensures var tail := Write(lines[1..], ends[1..]) + last;
            DropLf(tail) == tail
  {
    var tail := Write(lines[1..], ends[1..]) + last;
    if |lines| > 1 {
      var next, end := lines[1], TerminatorBytes(ends[1]);
      assert next in lines;
      assert Write(lines[1..], ends[1..]) == next + end + Write(lines[1..][1..], ends[1..][1..]);
      if next == [] {
        assert ends[0 + 1] != Lf;
        assert tail[0] == end[0] == CR;
      } else {
        assert tail[0] == next[0] && next[0] in next;
      }
    } else if last != [] {
      assert Write(lines[1..], ends[1..]) == [];
      assert tail[0] == last[0] && last[0] in last;
    }
  }

  lemma DataLine(lossy: Decoder, line: seq<byte>, payload: string)
    requires line != [] && lossy(line) == "data: " + payload
    ensures Interpret(lossy, "", line) == (payload, [])
  {
    var text, rest := lossy(line), " " + payload;
    assert text[0] == 'd' && !(":" <= text);
    assert text[..5] == "data:" && text[5..] == rest;
    assert rest[1..] == payload && "" + payload == payload;
  }

  /** The payload of an event written as one data line and a blank line. */
  lemma {:induction false} OneEvent(lossy: Decoder, line: seq<byte>, payload: string, rest: seq<seq<byte>>)
    requires line != [] && lossy(line) == "data: " + payload && payload != ""
    ensures Group(lossy, "", [line, []] + rest) == (Group(lossy, "", rest).0, [payload] + Group(lossy, "", rest).1)
  {
    assert [line, []] + rest == [line] + ([[]] + rest);
    DataLine(lossy, line, payload);
    GroupCons(lossy, "", line, [[]] + rest);
    GroupCons(lossy, payload, [], rest);
    var events := [payload] + Group(lossy, "", rest).1;
    assert [] + events == events;
  }

  lemma {:induction false} WrittenLines(lines: seq<seq<byte>>, lossy: Decoder)
    requires forall line <- lines :: Unterminated(line)
    ensures FeedAll(lossy, FRESH, Write(lines, seq(|lines|, _ => Lf))).completed == Group(lossy, "", lines).1
  {
    var input := Write(lines, seq(|lines|, _ => Lf));
    SplitRecovers(lines, seq(|lines|, _ => Lf), []);
    assert input + [] == input && [] + input == input;
    FeedSimulates(lossy, FRESH, input);
    assert [] + Group(lossy, "", lines).1 == Group(lossy, "", lines).1;
  }

  /** Two such events in one chunk are both queued. */
  lemma {:induction false} TwoEvents(lossy: Decoder, first: seq<byte>, second: seq<byte>, a: string, b: string)
    requires first != [] && second != [] && Unterminated(first) && Unterminated(second)
    requires lossy(first) == "data: " + a && lossy(second) == "data: " + b && a != "" && b != ""
    ensures FeedAll(lossy, FRESH, Write([first, [], second, []], [Lf, Lf, Lf, Lf])).completed == [a, b]
  {
    var lines := [first, [], second, []];
    WrittenLines(lines, lossy);
    assert seq(|lines|, _ => Lf) == [Lf, Lf, Lf, Lf];
    assert lines == [first, []] + ([second, []] + []);
    OneEvent(lossy, first, a, [second, []] + []);
    OneEvent(lossy, second, b, []);
    assert [a] + ([b] + []) == [a, b];
  }

  // ------------------------------------------------------------------
  // What a block of lines becomes: the code's joining rule, and the standard's.
  // ------------------------------------------------------------------

  /** The payload of a `data:` line, less one leading space. */
  function DataPayload(text: string): seq<string> {
    if "data:" <= text then [if " " <= text[5..] then text[6..] else text[5..]] else []
  }

  /** Which is the value behind `data:`, with or without one space between them. */
  lemma {:induction false} DataLinesAre(text: string, value: string)
    ensures DataPayload("data: " + value) == [value]
    ensures !(" " <= value) ==> DataPayload("data:" + value) == [value]
    ensures DataPayload(text) == [] <==> !("data:" <= text)
  {
    var spaced, plain := "data: " + value, "data:" + value;
    assert "data:" <= "data: " <= spaced && spaced[5..] == " " + value && spaced[6..] == value;
    assert "data:" <= plain && plain[5..] == value;
  }

  function Payloads(lossy: Decoder, block: seq<seq<byte>>): seq<string> {
    if block == [] then [] else DataPayload(lossy(block[0])) + Payloads(lossy, block[1..])
  }

  /** In the standard a line that is just the field name is an empty payload too. */
  function StandardPayloads(lossy: Decoder, block: seq<seq<byte>>): seq<string> {
    if block == [] then []
    else (if lossy(block[0]) == "data" then [""] else DataPayload(lossy(block[0]))) + StandardPayloads(lossy, block[1..])
  }

  function Join(payloads: seq<string>): string {
    if payloads == [] then ""
    else if |payloads| == 1 then payloads[0]
    else payloads[0] + "\n" + Join(payloads[1..])
  }

  /** Without the empty payloads at the front. */
  function DropBlank(payloads: seq<string>): seq<string> {
    if payloads != [] && payloads[0] == "" then DropBlank(payloads[1..]) else payloads
  }

  /** The code's event for a block: an empty text is none. */
  function Event(payloads: seq<string>): seq<string> {
    var text := Join(DropBlank(payloads));
    if text == "" then [] else [text]
  }

  /** The standard's event for a block (section 9.2.6). */
  function StandardEvent(payloads: seq<string>): seq<string> {
    if payloads == [] then [] else [Join(payloads)]
  }

  predicate NoBlankLine(block: seq<seq<byte>>) {
    forall line <- block :: line != []
  }

  /** The pending text once further payloads have come. */
  function Merged(pending: string, payloads: seq<string>): string
    decreases |payloads|
  {
    if payloads == [] then pending
    else Merged((if pending == "" then "" else pending + "\n") + payloads[0], payloads[1..])
  }

  lemma {:induction false} MergedIs(pending: string, payloads: seq<string>)
    ensures Merged(pending, payloads) == if pending == "" then Join(DropBlank(payloads)) else Join([pending] + payloads)
    decreases |payloads|
  {
    if payloads != [] {
      var head, tail := payloads[0], payloads[1..];
      assert payloads == [head] + tail && "" + head == head;
      if pending == "" {
        MergedIs(head, tail);
      } else {
        var longer := pending + "\n" + head;
        MergedIs(longer, tail);
        assert ([pending] + payloads)[1..] == payloads && ([longer] + tail)[1..] == tail;
        if tail != [] {
          assert pending + "\n" + (head + "\n" + Join(tail)) == longer + "\n" + Join(tail);
        }
      }
    }
  }

  lemma InterpretData(lossy: Decoder, pending: string, line: seq<byte>)
    requires line != []
    ensures Interpret(lossy, pending, line) == (Merged(pending, DataPayload(lossy(line))), [])
  {
    var text := lossy(line);
    if "data:" <= text {
      assert text[0] == 'd';
      var rest := text[5..];
      assert " " <= rest ==> text[6..] == rest[1..];
      var payload := DataPayload(text)[0];
      assert DataPayload(text)[1..] == [];
      assert Interpret(lossy, pending, line).0 == (if pending == "" then "" else pending + "\n") + payload;
    }
  }

  lemma {:induction false} MergedConcat(pending: string, a: seq<string>, b: seq<string>)
    ensures Merged(pending, a + b) == Merged(Merged(pending, a), b)
    decreases |a|
  {
    if a == [] {
      assert a + b == b;
    } else {
      assert (a + b)[1..] == a[1..] + b;
      MergedConcat((if pending == "" then "" else pending + "\n") + a[0], a[1..], b);
    }
  }

  lemma {:induction false} BlockIsPending(lossy: Decoder, pending: string, block: seq<seq<byte>>, rest: seq<seq<byte>>)
    requires NoBlankLine(block)
    ensures Group(lossy, pending, block + rest) == Group(lossy, Merged(pending, Payloads(lossy, block)), rest)
    decreases |block|
  {
    if block == [] {
      assert block + rest == rest;
    } else {
      var line, tail := block[0], block[1..];
      assert line in block && forall l <- tail :: l in block;
      assert block + rest == [line] + (tail + rest);
      var next := Merged(pending, DataPayload(lossy(line)));
      InterpretData(lossy, pending, line);
      GroupCons(lossy, pending, line, tail + rest);
      assert [] + Group(lossy, next, tail + rest).1 == Group(lossy, next, tail + rest).1;
      BlockIsPending(lossy, next, tail, rest);
      MergedConcat(pending, DataPayload(lossy(line)), Payloads(lossy, tail));
    }
  }

  /** The lines up to a blank one give one event: their payloads joined by LF,
      less the empty ones at the front - or none if nothing is left. */
  lemma {:induction false} BlockGivesItsEvent(lossy: Decoder, block: seq<seq<byte>>, rest: seq<seq<byte>>)
    requires NoBlankLine(block)
    ensures Group(lossy, "", block + [[]] + rest).1 == Event(Payloads(lossy, block)) + Group(lossy, "", rest).1
  {
    var pending := Merged("", Payloads(lossy, block));
    assert block + [[]] + rest == block + ([[]] + rest);
    BlockIsPending(lossy, "", block, [[]] + rest);
    MergedIs("", Payloads(lossy, block));
    GroupCons(lossy, pending, [], rest);
  }

  function FirstBlank(lines: seq<seq<byte>>): (i: nat)
    ensures i <= |lines| && (forall k :: 0 <= k < i ==> lines[k] != []) && (i < |lines| ==> lines[i] == [])
  {
    if lines == [] || lines[0] == [] then 0 else 1 + FirstBlank(lines[1..])
  }

  /** The blocks of lines that blank lines close; lines after the last are in none. */
  function Blocks(lines: seq<seq<byte>>): seq<seq<seq<byte>>>
    decreases |lines|
  {
    var i := FirstBlank(lines);
    if i == |lines| then [] else [lines[..i]] + Blocks(lines[i + 1..])
  }

  function EventsOf(lossy: Decoder, blocks: seq<seq<seq<byte>>>): seq<string> {
    if blocks == [] then [] else Event(Payloads(lossy, blocks[0])) + EventsOf(lossy, blocks[1..])
  }

  lemma {:induction false} GroupIsBlocks(lossy: Decoder, lines: seq<seq<byte>>)
    ensures Group(lossy, "", lines).1 == EventsOf(lossy, Blocks(lines))
    decreases |lines|
  {
    var i := FirstBlank(lines);
    var block := lines[..i];
    assert forall k :: 0 <= k < |block| ==> block[k] == lines[k];
    assert NoBlankLine(block);
    if i == |lines| {
      BlockIsPending(lossy, "", block, []);
      assert block + [] == lines;
    } else {
      var rest := lines[i + 1..];
      assert lines == block + [[]] + rest;
      BlockGivesItsEvent(lossy, block, rest);
      GroupIsBlocks(lossy, rest);
      assert ([block] + Blocks(rest))[1..] == Blocks(rest);
    }
  }

  /** So the parser's events, under every chunking and schedule, are those of the
      blocks of the whole input, each by the joining rule above. */
  lemma {:induction false} ParsesTheBlocks(lossy: Decoder, ops: seq<Op>)
    ensures var (p, taken) := Run(lossy, ops);
            taken + p.completed == EventsOf(lossy, Blocks(SplitLines(Input(ops))))
  {
    ParsesTheReference(lossy, ops);
    GroupIsBlocks(lossy, SplitLines(Input(ops)));
  }

  function TotalLength(payloads: seq<string>): nat {
    if payloads == [] then 0 else |payloads[0]| + TotalLength(payloads[1..])
  }

  lemma {:induction false} JoinLength(payloads: seq<string>)
    requires payloads != []
    ensures |Join(payloads)| == TotalLength(payloads) + |payloads| - 1
    decreases |payloads|
  {
    if |payloads| > 1 {
      JoinLength(payloads[1..]);
    } else {
      assert payloads[1..] == [];
    }
  }

  lemma {:induction false} DropBlankKeeps(payloads: seq<string>)
    ensures TotalLength(DropBlank(payloads)) == TotalLength(payloads) && |DropBlank(payloads)| <= |payloads|
    ensures DropBlank(payloads) == [] || DropBlank(payloads)[0] != ""
    ensures |DropBlank(payloads)| == |payloads| <==> payloads == [] || payloads[0] != ""
    decreases |payloads|
  {
    if payloads != [] && payloads[0] == "" {
      DropBlankKeeps(payloads[1..]);
    }
  }

  lemma {:induction false} TotalConcat(a: seq<string>, b: seq<string>)
    ensures TotalLength(a + b) == TotalLength(a) + TotalLength(b)
    decreases |a|
  {
    if a == [] {
      assert a + b == b;
    } else {
      assert (a + b)[1..] == a[1..] + b;
      TotalConcat(a[1..], b);
    }
  }

  /** The standard's payloads are the code's and one more per bare `data` line. */
  lemma {:induction false} StandardHasMore(lossy: Decoder, block: seq<seq<byte>>)
    ensures var ours, theirs := Payloads(lossy, block), StandardPayloads(lossy, block);
            && TotalLength(ours) == TotalLength(theirs) && |ours| <= |theirs|
            && (|ours| == |theirs| <==> forall line <- block :: lossy(line) != "data")
            && (|ours| == |theirs| ==> ours == theirs)
    decreases |block|
  {
    if block != [] {
      var line, tail := block[0], block[1..];
      var head := DataPayload(lossy(line));
      StandardHasMore(lossy, tail);
      TotalConcat(head, Payloads(lossy, tail));
      assert block == [line] + tail;
      if lossy(line) == "data" {
        assert head == [] && line in block;
        TotalConcat([""], StandardPayloads(lossy, tail));
        assert TotalLength([""]) == 0;
      } else {
        TotalConcat(head, StandardPayloads(lossy, tail));
      }
    }
  }

  /** The code's event is the standard's exactly when no line of the block is a bare
      `data` and its first payload, if any, is not empty. */
  lemma {:induction false} StandardExactlyWhen(lossy: Decoder, block: seq<seq<byte>>)
    ensures var payloads := Payloads(lossy, block);
            Event(payloads) == StandardEvent(StandardPayloads(lossy, block)) <==>
            (forall line <- block :: lossy(line) != "data") && (payloads == [] || payloads[0] != "")
  {
    var ours, theirs := Payloads(lossy, block), StandardPayloads(lossy, block);
    var kept := DropBlank(ours);
    StandardHasMore(lossy, block);
    DropBlankKeeps(ours);
    if kept != [] {
      JoinLength(kept);
      JoinLength(theirs);
      if |kept| == |ours| {
        assert kept == ours by {
          assert ours[0] != "";
        }
      }
    }
  }

  /** And so for the whole input, whatever follows the block. */
  lemma {:induction false} JoinsAsTheStandardExactlyWhen(lossy: Decoder, block: seq<seq<byte>>, rest: seq<seq<byte>>)
    requires NoBlankLine(block)
    ensures Group(lossy, "", block + [[]] + rest).1
            == StandardEvent(StandardPayloads(lossy, block)) + Group(lossy, "", rest).1 <==>
            && (forall line <- block :: lossy(line) != "data")
            && (Payloads(lossy, block) == [] || Payloads(lossy, block)[0] != "")
  {
    BlockGivesItsEvent(lossy, block, rest);
    StandardExactlyWhen(lossy, block);
    SameFront(Event(Payloads(lossy, block)), StandardEvent(StandardPayloads(lossy, block)), Group(lossy, "", rest).1);
  }

  lemma SameFront(a: seq<string>, b: seq<string>, rest: seq<string>)
    ensures a + rest == b + rest <==> a == b
  {
    if a + rest == b + rest {
      assert |a| == |b| && (a + rest)[..|a|] == a && (b + rest)[..|b|] == b;
    }
  }

  /** An empty first payload: the standard keeps its line break, the code does not. */
  lemma {:induction false} EmptyFirstPayloadIsDropped(lossy: Decoder, first: seq<byte>, second: seq<byte>, a: string)
    requires first != [] && second != [] && lossy(first) == "data:" && lossy(second) == "data: " + a && a != ""
    ensures Group(lossy, "", [first, second, []]).1 == [a]
    ensures StandardEvent(StandardPayloads(lossy, [first, second])) == ["\n" + a]
  {
    var block, both := [first, second], ["", a];
    TwoPayloads(a);
    PayloadsOfTwo(lossy, first, second);
    assert [""] + [a] == both && both[1..] == [a];
    assert DropBlank(both) == DropBlank([a]) == [a] && Event(both) == [a];
    assert Join(both) == "" + "\n" + Join([a]) == "\n" + a;
    BlockGivesItsEvent(lossy, block, []);
    assert block + [[]] + [] == [first, second, []] && [a] + [] == [a];
  }

  lemma PayloadsOfTwo(lossy: Decoder, first: seq<byte>, second: seq<byte>)
    requires lossy(first) != "data" && lossy(second) != "data"
    ensures var payloads := DataPayload(lossy(first)) + DataPayload(lossy(second));
            Payloads(lossy, [first, second]) == StandardPayloads(lossy, [first, second]) == payloads
  {
    var later := DataPayload(lossy(second));
    assert [first, second][1..] == [second] && [second][1..] == [];
    assert later + [] == later;
    assert Payloads(lossy, [second]) == later;
    StandardHasMore(lossy, [first, second]);
  }

  lemma TwoPayloads(a: string)
    ensures DataPayload("data:") == [""] && DataPayload("data: " + a) == [a]
    ensures "data:" != "data" && "data: " + a != "data"
  {
    var text := "data: " + a;
    assert text[..5] == "data:" && text[5..][0] == ' ' && text[6..] == a;
    assert "data:"[5..] == "";
    assert |text| >= 6;
  }
}
