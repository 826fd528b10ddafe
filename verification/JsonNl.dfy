/**
 The alternative adapter's stream: newline-delimited JSON, a map from content
 block index to tool-call id, and a generator that stops at the first error or
 at the first `Done`.
 */
module JsonNl {
  import opened Prelude
  import opened AiEvents

  const LF: byte := 10
  const CR: byte := 13

  datatype BlockStart = TextBlock | ToolUse(id: string, name: string) | OtherBlock
  datatype BlockDelta = TextFragment(text: string) | InputJsonDelta(partialJson: string) | OtherDelta

  datatype WireUsage = WireUsage(inputTokens: u32, outputTokens: u32, cacheReadInputTokens: u32)

  datatype WireEvent =
    | MessageStart(usage: Option<WireUsage>)
    | ContentBlockStart(index: nat, block: BlockStart)
    | ContentBlockDelta(index: nat, delta: BlockDelta)
    | ContentBlockStop(index: nat)
    | MessageDelta(usage: Option<WireUsage>)
    | MessageStop
    | Other

  /** The JSON decoder for one line, and lossy UTF-8; nothing is assumed of them. */
  type Decoder = string -> Result<WireEvent, string>
  type Lossy = seq<byte> -> string

  type IndexMap = map<nat, string>

  // ------------------------------------------------------------------
  // Lines.
  // ------------------------------------------------------------------

  function Position(bytes: seq<byte>): (i: nat)
    ensures i <= |bytes|
    ensures forall k :: 0 <= k < i ==> bytes[k] != LF
    ensures i < |bytes| ==> bytes[i] == LF
  {
    if bytes == [] || bytes[0] == LF then 0 else 1 + Position(bytes[1..])
  }

  /** The bytes of every terminated line, and the unterminated rest. */
  function SplitLf(bytes: seq<byte>): (seq<seq<byte>>, seq<byte>) {
    if bytes == [] then ([], [])
    else
      var (lines, rest) := SplitLf(bytes[..|bytes| - 1]);
      var c := bytes[|bytes| - 1];
      if c == LF then (lines + [rest], []) else (lines, rest + [c])
  }

  function StripCr(line: seq<byte>): seq<byte> {
    if line != [] && line[|line| - 1] == CR then line[..|line| - 1] else line
  }

  /** A decoded line as a payload, unless it is blank. */
  function NonBlank(text: string): seq<string> {
    if Trim(text) == "" then [] else [text]
  }

  function Payloads(lossy: Lossy, lines: seq<seq<byte>>): seq<string> {
    if lines == [] then [] else NonBlank(lossy(StripCr(lines[0]))) + Payloads(lossy, lines[1..])
  }

  /** Splitting what follows after the leftover continues the split. */
  lemma {:induction false} SplitConcat(a: seq<byte>, b: seq<byte>)
    ensures SplitLf(a + b) == (SplitLf(a).0 + SplitLf(SplitLf(a).1 + b).0, SplitLf(SplitLf(a).1 + b).1)
    decreases |b|
  {
    var (lines, left) := SplitLf(a);
    if b == [] {
      LeftoverHasNoLines(a);
      SplitUnterminated(left);
      assert a + b == a && left + b == left && lines + [] == lines;
    } else {
      var init, c := b[..|b| - 1], b[|b| - 1];
      SplitConcat(a, init);
      assert (a + b)[..|a + b| - 1] == a + init && (left + b)[..|left + b| - 1] == left + init;
      var (more, rest) := SplitLf(left + init);
      assert lines + (more + [rest]) == lines + more + [rest];
    }
  }

  lemma {:induction false} LeftoverHasNoLines(bytes: seq<byte>)
    ensures LF !in SplitLf(bytes).1
    decreases |bytes|
  {
    if bytes != [] {
      LeftoverHasNoLines(bytes[..|bytes| - 1]);
    }
  }

  lemma {:induction false} SplitUnterminated(bytes: seq<byte>)
    requires LF !in bytes
    ensures SplitLf(bytes) == ([], bytes)
    decreases |bytes|
  {
    if bytes != [] {
      SplitUnterminated(bytes[..|bytes| - 1]);
      assert bytes == bytes[..|bytes| - 1] + [bytes[|bytes| - 1]];
    }
  }

  lemma {:induction false} SplitFirst(line: seq<byte>, rest: seq<byte>)
    requires LF !in line
    ensures SplitLf(line + [LF] + rest) == ([line] + SplitLf(rest).0, SplitLf(rest).1)
  {
    SplitUnterminated(line);
    var first := line + [LF];
    assert first[..|first| - 1] == line && first[|first| - 1] == LF;
    var none: seq<seq<byte>> := [];
    assert none + [line] == [line];
    assert SplitLf(first) == (none + [line], []);
    SplitConcat(line + [LF], rest);
    assert [] + rest == rest;
  }

  /** The payloads of the terminated lines, and the bytes left waiting. */
  function Drained(lossy: Lossy, bytes: seq<byte>): (seq<string>, seq<byte>) {
    (Payloads(lossy, SplitLf(bytes).0), SplitLf(bytes).1)
  }

  lemma {:induction false} DrainFirstLine(lossy: Lossy, bytes: seq<byte>, before: seq<string>)
    requires Position(bytes) < |bytes|
    ensures var i := Position(bytes);
            var rest := Drained(lossy, bytes[i + 1..]);
            && Drained(lossy, bytes).1 == rest.1
            && before + Drained(lossy, bytes).0 == before + NonBlank(lossy(StripCr(bytes[..i]))) + rest.0
  {
    var i := Position(bytes);
    var line, tail := bytes[..i], bytes[i + 1..];
    assert bytes == line + [LF] + tail;
    SplitFirst(line, tail);
    PayloadsOfFirst(lossy, line, SplitLf(tail).0);
    var first := NonBlank(lossy(StripCr(line)));
    assert before + (first + Drained(lossy, tail).0) == before + first + Drained(lossy, tail).0;
  }

  lemma PayloadsOfFirst(lossy: Lossy, line: seq<byte>, lines: seq<seq<byte>>)
    ensures Payloads(lossy, [line] + lines) == NonBlank(lossy(StripCr(line))) + Payloads(lossy, lines)
  {
    assert ([line] + lines)[1..] == lines;
  }

  lemma AddNonBlank(out: seq<string>, text: string)
    ensures out + NonBlank(text) == if Trim(text) != "" then out + [text] else out
  {}

  lemma NothingTerminated(lossy: Lossy, bytes: seq<byte>, out: seq<string>)
    requires Position(bytes) == |bytes|
    ensures Drained(lossy, bytes) == ([], bytes) && out + Drained(lossy, bytes).0 == out
  {
    SplitUnterminated(bytes);
    assert out + [] == out;
  }

  class JsonNlParser {
    const lossy: Lossy
    var buffer: seq<byte>

    constructor (lossy: Lossy)
      ensures this.lossy == lossy && buffer == []
    {
      this.lossy := lossy;
      buffer := [];
    }

    method Feed(chunk: seq<byte>) returns (out: seq<string>)
      modifies this
      ensures (out, buffer) == Drained(lossy, old(buffer) + chunk)
    {
      buffer := buffer + chunk;
      out := [];
      ghost var goal := Drained(lossy, buffer);
      assert out + goal.0 == goal.0;
      while Position(buffer) < |buffer|
        invariant Drained(lossy, buffer).1 == goal.1
        invariant out + Drained(lossy, buffer).0 == goal.0
        decreases |buffer|
      {
        DrainFirstLine(lossy, buffer, out);
        var text := TakeLine();
        AddNonBlank(out, text);
        if Trim(text) != "" {
          out := out + [text];
        }
      }
      NothingTerminated(lossy, buffer, out);
    }

    /** Drains the first terminated line. */
    method TakeLine() returns (text: string)
      requires Position(buffer) < |buffer|
      modifies this
      ensures var i := Position(old(buffer));
              text == lossy(StripCr(old(buffer)[..i])) && buffer == old(buffer)[i + 1..]
    {
      var idx := Position(buffer);
      var line := buffer[..idx + 1];
      assert line[..|line| - 1] == buffer[..idx];
      buffer := buffer[idx + 1..];
      text := LineText(line);
    }

    /** A drained line without its terminator, decoded. */
    method LineText(line: seq<byte>) returns (text: string)
      requires line != []
      ensures text == lossy(StripCr(line[..|line| - 1]))
    {
      var end := |line| - 1;
      ghost var content := line[..end];
      if end > 0 && line[end - 1] == CR {
        end := end - 1;
      }
      assert line[..end] == StripCr(content);
      text := lossy(line[..end]);
    }

    method Flush() returns (out: seq<string>)
      modifies this
      ensures buffer == [] && out == NonBlank(lossy(old(buffer)))
    {
      var leftover := buffer;
      buffer := [];
      var text := lossy(leftover);
      if Trim(text) == "" {
        out := [];
      } else {
        out := [text];
      }
    }
  }

  // ------------------------------------------------------------------
  // Events.
  // ------------------------------------------------------------------

  function UnknownBlock(index: nat): string {
    "input_json_delta for unknown content block index " + Decimal(index)
  }

  function Report(usage: Option<WireUsage>): Option<StreamEvent> {
    match usage
    case None => None
    case Some(u) => Some(UsageReport(Usage(u.inputTokens, u.outputTokens, u.cacheReadInputTokens)))
  }

  /** What a decoded event surfaces, and the index map after it. */
  function Apply(ids: IndexMap, event: WireEvent): (IndexMap, Result<Option<StreamEvent>, string>) {
    match event
    case MessageStart(usage) => (ids, Success(Report(usage)))
    case ContentBlockStart(index, ToolUse(id, name)) =>
      (ids[index := id], Success(Some(ToolCallDelta(id, Some(name), ""))))
    case ContentBlockStart(_, _) => (ids, Success(None))
    case ContentBlockDelta(_, TextFragment(text)) => (ids, Success(Some(TextDelta(text))))
    case ContentBlockDelta(index, InputJsonDelta(partialJson)) =>
      (ids, if index in ids then Success(Some(ToolCallDelta(ids[index], None, partialJson)))
            else Failure(UnknownBlock(index)))
    case ContentBlockDelta(_, OtherDelta) => (ids, Success(None))
    case ContentBlockStop(index) => (ids - {index}, Success(None))
    case MessageDelta(usage) => (ids, Success(Report(usage)))
    case MessageStop => (ids, Success(Some(Done)))
    case Other => (ids, Success(None))
  }

  function ParseWireEvent(decode: Decoder, ids: IndexMap, line: string): (IndexMap, Result<Option<StreamEvent>, string>) {
    match decode(line)
    case Failure(reason) => (ids, Failure("malformed JSON-NL event: " + reason))
    case Success(event) => Apply(ids, event)
  }

  /** What a run of lines emits, and whether it ended the stream. */
  datatype Emitted = Emitted(out: seq<Emission>, ids: IndexMap, stopped: bool)

  function Emit(decode: Decoder, ids: IndexMap, lines: seq<string>): Emitted
    decreases |lines|
  {
    if lines == [] then Emitted([], ids, false)
    else
      var (next, result) := ParseWireEvent(decode, ids, lines[0]);
      match result
      case Failure(message) => Emitted([Failure(ProviderError(message))], next, true)
      case Success(None) => Emit(decode, next, lines[1..])
      case Success(Some(Done)) => Emitted([Success(Done)], next, true)
      case Success(Some(event)) =>
        var rest := Emit(decode, next, lines[1..]);
        rest.(out := [Success(event)] + rest.out)
  }

  /** The emissions of the whole stream, chunk by chunk. */
  function Output(decode: Decoder, lossy: Lossy, items: seq<Item>, buffer: seq<byte>, ids: IndexMap): seq<Emission>
    decreases |items|
  {
    if items == [] then
      var e := Emit(decode, ids, NonBlank(lossy(buffer)));
      if e.stopped then e.out else e.out + [Success(Done)]
    else match items[0]
      case TransportError(reason) => [Failure(Network(reason))]
      case Chunk(bytes) =>
        var (lines, rest) := Drained(lossy, buffer + bytes);
        var e := Emit(decode, ids, lines);
        if e.stopped then e.out else e.out + Output(decode, lossy, items[1..], rest, e.ids)
  }

  /** What the first chunk emits, and what follows it. */
  function ThroughChunk(
    out: seq<Emission>, decode: Decoder, lossy: Lossy, bytes: seq<byte>, later: seq<Item>, ids: IndexMap): seq<Emission>
  {
    var (lines, rest) := Drained(lossy, bytes);
    var e := Emit(decode, ids, lines);
    if e.stopped then out + e.out else out + e.out + Output(decode, lossy, later, rest, e.ids)
  }

  lemma OutputOfChunk(decode: Decoder, lossy: Lossy, items: seq<Item>, buffer: seq<byte>, ids: IndexMap)
    requires items != [] && items[0].Chunk?
    ensures Output(decode, lossy, items, buffer, ids)
         == ThroughChunk([], decode, lossy, buffer + items[0].bytes, items[1..], ids)
  {
    var (lines, rest) := Drained(lossy, buffer + items[0].bytes);
    var e := Emit(decode, ids, lines);
    assert [] + e.out == e.out;
  }

  lemma ThroughChunkAfter(
    out: seq<Emission>, decode: Decoder, lossy: Lossy, bytes: seq<byte>, later: seq<Item>, ids: IndexMap)
    ensures out + ThroughChunk([], decode, lossy, bytes, later, ids)
         == ThroughChunk(out, decode, lossy, bytes, later, ids)
  {
    var (lines, rest) := Drained(lossy, bytes);
    var e := Emit(decode, ids, lines);
    var more := Output(decode, lossy, later, rest, e.ids);
    assert [] + e.out == e.out && out + (e.out + more) == out + e.out + more;
  }

  lemma OutputAfterChunk(
    out: seq<Emission>, decode: Decoder, lossy: Lossy, items: seq<Item>, i: nat, buffer: seq<byte>, ids: IndexMap)
    requires i < |items| && items[i].Chunk?
    ensures out + Output(decode, lossy, items[i..], buffer, ids)
         == ThroughChunk(out, decode, lossy, buffer + items[i].bytes, items[i + 1..], ids)
  {
    var now := items[i..];
    assert now[0] == items[i] && now[1..] == items[i + 1..];
    OutputOfChunk(decode, lossy, now, buffer, ids);
    ThroughChunkAfter(out, decode, lossy, buffer + items[i].bytes, items[i + 1..], ids);
  }

  lemma OutputAtEnd(out: seq<Emission>, decode: Decoder, lossy: Lossy, buffer: seq<byte>, ids: IndexMap)
    ensures var e := Emit(decode, ids, NonBlank(lossy(buffer)));
            out + Output(decode, lossy, [], buffer, ids) == if e.stopped then out + e.out else out + e.out + [Success(Done)]
  {
    var e := Emit(decode, ids, NonBlank(lossy(buffer)));
    assert out + (e.out + [Success(Done)]) == out + e.out + [Success(Done)];
  }

  /** The generator, run to its end. */
  method ChatStream(items: seq<Item>, decode: Decoder, lossy: Lossy) returns (out: seq<Emission>)
    ensures out == Output(decode, lossy, items, [], map[])
  {
    var parser := new JsonNlParser(lossy);
    var indexMap: IndexMap := map[];
    out := [];
    ghost var goal := Output(decode, lossy, items, [], map[]);
    assert items[0..] == items && out + goal == goal;
    for i := 0 to |items|
      invariant parser.lossy == lossy
      invariant out + Output(decode, lossy, items[i..], parser.buffer, indexMap) == goal
    {
      match items[i] {
        case TransportError(reason) =>
          assert items[i..][0] == items[i];
          return out + [Failure(Network(reason))];
        case Chunk(bytes) =>
          OutputAfterChunk(out, decode, lossy, items, i, parser.buffer, indexMap);
          var lines := parser.Feed(bytes);
          var stopped, emitted;
          emitted, indexMap, stopped := EmitLines(lines, indexMap, decode);
          out := out + emitted;
          if stopped {
            return;
          }
      }
    }
    assert items[|items|..] == [];
    OutputAtEnd(out, decode, lossy, parser.buffer, indexMap);
    var lines := parser.Flush();
    var stopped, emitted;
    emitted, indexMap, stopped := EmitLines(lines, indexMap, decode);
    out := out + emitted;
    if !stopped {
      out := out + [Success(Done)];
    }
  }

  /** `e` with `out` emitted before it. */
  function Before(out: seq<Emission>, e: Emitted): Emitted {
    e.(out := out + e.out)
  }

  lemma EmitStep(decode: Decoder, ids: IndexMap, lines: seq<string>, i: nat, out: seq<Emission>)
    requires i < |lines|
    ensures var (next, result) := ParseWireEvent(decode, ids, lines[i]);
            var rest := Emit(decode, next, lines[i + 1..]);
            Before(out, Emit(decode, ids, lines[i..])) ==
            match result
            case Failure(message) => Emitted(out + [Failure(ProviderError(message))], next, true)
            case Success(None) => Before(out, rest)
            case Success(Some(event)) =>
              if event.Done? then Emitted(out + [Success(Done)], next, true) else Before(out + [Success(event)], rest)
  {
    var now := lines[i..];
    assert now[0] == lines[i] && now[1..] == lines[i + 1..];
    var (next, result) := ParseWireEvent(decode, ids, lines[i]);
    if result.Success? && result.value.Some? {
      var event, more := result.value.value, Emit(decode, next, lines[i + 1..]).out;
      assert out + ([Success(event)] + more) == out + [Success(event)] + more;
    }
  }

  /** The inner loop: parse lines and yield until an error or `Done`. */
  method EmitLines(lines: seq<string>, ids: IndexMap, decode: Decoder)
    returns (out: seq<Emission>, indexMap: IndexMap, stopped: bool)
    ensures Emitted(out, indexMap, stopped) == Emit(decode, ids, lines)
  {
    indexMap := ids;
    out := [];
    ghost var goal := Emit(decode, ids, lines);
    assert lines[0..] == lines && Before([], goal) == goal;
    for i := 0 to |lines|
      invariant goal == Before(out, Emit(decode, indexMap, lines[i..]))
    {
      EmitStep(decode, indexMap, lines, i, out);
      var (next, result) := ParseWireEvent(decode, indexMap, lines[i]);
      indexMap := next;
      if result.Failure? {
        return out + [Failure(ProviderError(result.error))], indexMap, true;
      }
      if result.value.Some? {
        out := out + [Success(result.value.value)];
        if result.value.value.Done? {
          return out, indexMap, true;
        }
      }
    }
    assert lines[|lines|..] == [] && out + [] == out;
    return out, indexMap, false;
  }

  // ------------------------------------------------------------------
  // The stream depends only on the concatenated bytes.
  // ------------------------------------------------------------------

  /** The payload lines of a complete byte stream, trailing partial line included. */
  function AllPayloads(lossy: Lossy, bytes: seq<byte>): seq<string> {
    Payloads(lossy, SplitLf(bytes).0) + NonBlank(lossy(SplitLf(bytes).1))
  }

  /** Lines emitted, then the given ending unless the stream already ended. */
  function Ended(e: Emitted, ending: Emission): seq<Emission> {
    if e.stopped then e.out else e.out + [ending]
  }

  lemma {:induction false} PayloadsConcat(lossy: Lossy, a: seq<seq<byte>>, b: seq<seq<byte>>)
    ensures Payloads(lossy, a + b) == Payloads(lossy, a) + Payloads(lossy, b)
    decreases |a|
  {
    if a == [] {
      assert a + b == b;
    } else {
      assert (a + b)[1..] == a[1..] + b;
      PayloadsConcat(lossy, a[1..], b);
      var first := NonBlank(lossy(StripCr(a[0])));
      assert first + (Payloads(lossy, a[1..]) + Payloads(lossy, b)) == first + Payloads(lossy, a[1..]) + Payloads(lossy, b);
    }
  }

  lemma {:induction false} EmitConcat(decode: Decoder, ids: IndexMap, a: seq<string>, b: seq<string>)
    ensures var e := Emit(decode, ids, a);
            Emit(decode, ids, a + b) ==
              if e.stopped then e else (var f := Emit(decode, e.ids, b); f.(out := e.out + f.out))
    decreases |a|
  {
    if a == [] {
      assert a + b == b;
      assert [] + Emit(decode, ids, b).out == Emit(decode, ids, b).out;
    } else {
      assert (a + b)[0] == a[0] && (a + b)[1..] == a[1..] + b;
      var (next, result) := ParseWireEvent(decode, ids, a[0]);
      if result.Success? && !(result.value.Some? && result.value.value.Done?) {
        EmitConcat(decode, next, a[1..], b);
        if result.value.Some? {
          var e := Emit(decode, next, a[1..]);
          var f := Emit(decode, e.ids, b);
          assert [Success(result.value.value)] + (e.out + f.out) == [Success(result.value.value)] + e.out + f.out;
        }
      }
    }
  }

  /** Draining in two steps yields the payloads of one. */
  lemma {:induction false} DrainConcat(lossy: Lossy, a: seq<byte>, b: seq<byte>)
    ensures var (here, left) := Drained(lossy, a);
            Drained(lossy, a + b) == (here + Drained(lossy, left + b).0, Drained(lossy, left + b).1)
  {
    SplitConcat(a, b);
    PayloadsConcat(lossy, SplitLf(a).0, SplitLf(SplitLf(a).1 + b).0);
  }

  lemma {:induction false} AllPayloadsConcat(lossy: Lossy, a: seq<byte>, b: seq<byte>)
    ensures var (here, left) := Drained(lossy, a);
            AllPayloads(lossy, a + b) == here + AllPayloads(lossy, left + b)
  {
    var whole, here := Drained(lossy, a + b), Drained(lossy, a).0;
    var later := Drained(lossy, Drained(lossy, a).1 + b);
    DrainConcat(lossy, a, b);
    Regroup(here, later.0, NonBlank(lossy(later.1)));
    assert AllPayloads(lossy, a + b) == whole.0 + NonBlank(lossy(whole.1));
  }

  lemma Regroup(a: seq<string>, b: seq<string>, c: seq<string>)
    ensures a + b + c == a + (b + c)
  {}

  lemma {:induction false} OutputIs(
    decode: Decoder, lossy: Lossy, chunks: seq<Item>, tail: seq<Item>, buffer: seq<byte>, ids: IndexMap)
    requires forall item <- chunks :: item.Chunk?
    requires tail != [] ==> tail[0].TransportError?
    requires LF !in buffer
    ensures var bytes := buffer + Bytes(chunks);
            Output(decode, lossy, chunks + tail, buffer, ids) ==
              if tail == [] then Ended(Emit(decode, ids, AllPayloads(lossy, bytes)), Success(Done))
              else Ended(Emit(decode, ids, Drained(lossy, bytes).0), Failure(Network(tail[0].reason)))
    decreases |chunks|
  {
    if chunks == [] {
      assert chunks + tail == tail && buffer + Bytes(chunks) == buffer;
      SplitUnterminated(buffer);
      assert [] + NonBlank(lossy(buffer)) == NonBlank(lossy(buffer));
      if tail != [] {
        var last: seq<Emission> := [Failure(Network(tail[0].reason))];
        assert [] + last == last;
      }
    } else {
      var rest := chunks[1..];
      var first := buffer + chunks[0].bytes;
      var (here, left) := Drained(lossy, first);
      assert (chunks + tail)[0] == chunks[0] && (chunks + tail)[1..] == rest + tail;
      assert buffer + Bytes(chunks) == first + Bytes(rest);
      DrainConcat(lossy, first, Bytes(rest));
      AllPayloadsConcat(lossy, first, Bytes(rest));
      LeftoverHasNoLines(first);
      var e := Emit(decode, ids, here);
      if tail == [] {
        EmitConcat(decode, ids, here, AllPayloads(lossy, left + Bytes(rest)));
      } else {
        EmitConcat(decode, ids, here, Drained(lossy, left + Bytes(rest)).0);
      }
      if !e.stopped {
        OutputIs(decode, lossy, rest, tail, left, e.ids);
        if tail == [] {
          EndedAppends(e.out, Emit(decode, e.ids, AllPayloads(lossy, left + Bytes(rest))), Success(Done));
        } else {
          EndedAppends(e.out, Emit(decode, e.ids, Drained(lossy, left + Bytes(rest)).0), Failure(Network(tail[0].reason)));
        }
      }
    }
  }

  lemma EndedAppends(out: seq<Emission>, e: Emitted, ending: Emission)
    ensures Ended(e.(out := out + e.out), ending) == out + Ended(e, ending)
  {
    assert out + e.out + [ending] == out + (e.out + [ending]);
  }

  /** Absent transport errors the events are those of the non-blank lines of the
      concatenated bytes, trailing partial line included, then one ending; a
      transport error ends the stream after the lines completed before it. */
  lemma {:induction false} ChunkingIsIrrelevant(decode: Decoder, lossy: Lossy, chunks: seq<Item>, tail: seq<Item>)
    requires forall item <- chunks :: item.Chunk?
    requires tail != [] ==> tail[0].TransportError?
    ensures Output(decode, lossy, chunks + tail, [], map[]) ==
              if tail == [] then Ended(Emit(decode, map[], AllPayloads(lossy, Bytes(chunks))), Success(Done))
              else Ended(Emit(decode, map[], Drained(lossy, Bytes(chunks)).0), Failure(Network(tail[0].reason)))
  {
    assert [] + Bytes(chunks) == Bytes(chunks);
    OutputIs(decode, lossy, chunks, tail, [], map[]);
  }

  lemma {:induction false} EmitEndsAtMostOnce(decode: Decoder, ids: IndexMap, lines: seq<string>)
    ensures var e := Emit(decode, ids, lines);
            && Terminals(e.out) == (if e.stopped then 1 else 0)
            && (e.stopped ==> e.out != [] && IsTerminal(e.out[|e.out| - 1]))
    decreases |lines|
  {
    if lines != [] {
      var (next, result) := ParseWireEvent(decode, ids, lines[0]);
      if result.Success? && !(result.value.Some? && result.value.value.Done?) {
        EmitEndsAtMostOnce(decode, next, lines[1..]);
        var rest := Emit(decode, next, lines[1..]).out;
        if result.value.Some? {
          assert ([Success(result.value.value)] + rest)[1..] == rest;
        }
      }
    }
  }

  lemma EndingAppends(out: seq<Emission>, more: seq<Emission>)
    requires Terminals(out) == 0 && Terminals(more) == 1 && more != [] && IsTerminal(more[|more| - 1])
    ensures Terminals(out + more) == 1 && out + more != [] && IsTerminal((out + more)[|out + more| - 1])
  {
    TerminalsConcat(out, more);
  }

  /** Every stream, malformed lines and transport errors included, has exactly
      one terminal item - a `Done` or an error - and it is the last. */
  lemma {:induction false} OneEndingAndItIsLast(
    decode: Decoder, lossy: Lossy, items: seq<Item>, buffer: seq<byte>, ids: IndexMap)
    ensures var out := Output(decode, lossy, items, buffer, ids);
            Terminals(out) == 1 && out != [] && IsTerminal(out[|out| - 1])
    decreases |items|
  {
    if items == [] {
      var e := Emit(decode, ids, NonBlank(lossy(buffer)));
      EmitEndsAtMostOnce(decode, ids, NonBlank(lossy(buffer)));
      if !e.stopped {
        EndingAppends(e.out, [Success(Done)]);
      }
    } else if items[0].Chunk? {
      var (lines, rest) := Drained(lossy, buffer + items[0].bytes);
      var e := Emit(decode, ids, lines);
      EmitEndsAtMostOnce(decode, ids, lines);
      if !e.stopped {
        OneEndingAndItIsLast(decode, lossy, items[1..], rest, e.ids);
        EndingAppends(e.out, Output(decode, lossy, items[1..], rest, e.ids));
      }
    }
  }

  // ------------------------------------------------------------------
  // Which call an argument fragment belongs to.
  // ------------------------------------------------------------------

  /** The id of the latest tool-use start at `index` that was not stopped since. */
  function OpenCall(history: seq<WireEvent>, index: nat): Option<string> {
    if history == [] then None
    else
      var last := history[|history| - 1];
      if last.ContentBlockStart? && last.index == index && last.block.ToolUse? then Some(last.block.id)
      else if last == ContentBlockStop(index) then None
      else OpenCall(history[..|history| - 1], index)
  }

  /** The index map after a history of decoded events. */
  function MapAfter(history: seq<WireEvent>): IndexMap {
    if history == [] then map[] else Apply(MapAfter(history[..|history| - 1]), history[|history| - 1]).0
  }

  lemma {:induction false} MapHoldsOpenCalls(history: seq<WireEvent>, index: nat)
    ensures OpenCall(history, index) == if index in MapAfter(history) then Some(MapAfter(history)[index]) else None
    decreases |history|
  {
    if history != [] {
      MapHoldsOpenCalls(history[..|history| - 1], index);
    }
  }

  predicate AllDecode(decode: Decoder, lines: seq<string>) {
    forall line <- lines :: decode(line).Success?
  }

  function Decoded(decode: Decoder, lines: seq<string>): (r: seq<WireEvent>)
    requires AllDecode(decode, lines)
    ensures |r| == |lines|
  {
    seq(|lines|, i requires 0 <= i < |lines| => decode(lines[i]).value)
  }

  /** While the stream is not ended, its index map is the one of its history. */
  lemma {:induction false} EmitTracksHistory(decode: Decoder, lines: seq<string>)
    requires AllDecode(decode, lines) && !Emit(decode, map[], lines).stopped
    ensures Emit(decode, map[], lines).ids == MapAfter(Decoded(decode, lines))
    decreases |lines|
  {
    if lines != [] {
      var before, last := lines[..|lines| - 1], lines[|lines| - 1];
      assert lines == before + [last];
      EmitConcat(decode, map[], before, [last]);
      EmitTracksHistory(decode, before);
      assert Decoded(decode, lines)[..|lines| - 1] == Decoded(decode, before);
      assert [last][1..] == [];
      var ids := Emit(decode, map[], before).ids;
      assert Emit(decode, ids, [last]).ids == ParseWireEvent(decode, ids, last).0;
    }
  }

  /** After any lines, an argument fragment is emitted under the id of the latest
      tool-use start at its index that is not yet stopped, and ends the stream
      with an error exactly when there is none. */
  lemma {:induction false} FragmentGoesToOpenCall(
    decode: Decoder, lines: seq<string>, line: string, index: nat, partialJson: string)
    requires AllDecode(decode, lines) && !Emit(decode, map[], lines).stopped
    requires decode(line) == Success(ContentBlockDelta(index, InputJsonDelta(partialJson)))
    ensures var open := OpenCall(Decoded(decode, lines), index);
            var before, after := Emit(decode, map[], lines).out, Emit(decode, map[], lines + [line]);
            if open.Some?
            then !after.stopped && after.out == before + [Success(ToolCallDelta(open.value, None, partialJson))]
            else && after.stopped
                 && after.out == before + [Failure(ProviderError(
                      "input_json_delta for unknown content block index " + Decimal(index)))]
  {
    EmitTracksHistory(decode, lines);
    MapHoldsOpenCalls(Decoded(decode, lines), index);
    EmitConcat(decode, map[], lines, [line]);
    assert [line][1..] == [];
    var ids := Emit(decode, map[], lines).ids;
    assert Emit(decode, ids, []) == Emitted([], ids, false);
  }

  // ------------------------------------------------------------------
  // What each kind of line adds to the output.
  // ------------------------------------------------------------------

  /** The line adds `added` to what was emitted and ends the stream or not. */
  ghost predicate Adds(decode: Decoder, lines: seq<string>, line: string, added: seq<Emission>, stops: bool) {
    var before, after := Emit(decode, map[], lines), Emit(decode, map[], lines + [line]);
    after.out == before.out + added && after.stopped == stops
  }

  lemma {:induction false} LineAdds(decode: Decoder, lines: seq<string>, line: string)
    requires !Emit(decode, map[], lines).stopped
    ensures match decode(line)
            case Failure(reason) =>
              Adds(decode, lines, line, [Failure(ProviderError("malformed JSON-NL event: " + reason))], true)
            case Success(event) =>
              match event
              case MessageStart(None) => Adds(decode, lines, line, [], false)
              case MessageStart(Some(WireUsage(input, output, cached))) =>
                Adds(decode, lines, line, [Success(UsageReport(Usage(input, output, cached)))], false)
              case MessageDelta(None) => Adds(decode, lines, line, [], false)
              case MessageDelta(Some(WireUsage(input, output, cached))) =>
                Adds(decode, lines, line, [Success(UsageReport(Usage(input, output, cached)))], false)
              case ContentBlockStart(_, ToolUse(id, name)) =>
                Adds(decode, lines, line, [Success(ToolCallDelta(id, Some(name), ""))], false)
              case ContentBlockStart(_, TextBlock) => Adds(decode, lines, line, [], false)
              case ContentBlockStart(_, OtherBlock) => Adds(decode, lines, line, [], false)
              case ContentBlockDelta(_, TextFragment(text)) =>
                Adds(decode, lines, line, [Success(TextDelta(text))], false)
              case ContentBlockDelta(_, InputJsonDelta(_)) => true // FragmentGoesToOpenCall
              case ContentBlockDelta(_, OtherDelta) => Adds(decode, lines, line, [], false)
              case ContentBlockStop(_) => Adds(decode, lines, line, [], false)
              case MessageStop => Adds(decode, lines, line, [Success(Done)], true)
              case Other => Adds(decode, lines, line, [], false)
  {
    EmitConcat(decode, map[], lines, [line]);
    assert [line][1..] == [];
    var e := Emit(decode, map[], lines);
    assert Emit(decode, e.ids, []) == Emitted([], e.ids, false);
    assert e.out + [] == e.out;
  }

  // ------------------------------------------------------------------
  // Lines written with LF or CR LF come back, blank ones dropped.
  // ------------------------------------------------------------------

  predicate Visible(text: string) {
    exists c <- text :: !IsWhitespace(c)
  }

  /** The lines with something to see, decoded, in order. */
  function VisibleTexts(lossy: Lossy, lines: seq<seq<byte>>): seq<string> {
    if lines == [] then []
    else (if Visible(lossy(lines[0])) then [lossy(lines[0])] else []) + VisibleTexts(lossy, lines[1..])
  }

  lemma TrimSees(text: string)
    ensures Trim(text) != "" <==> Visible(text)
  {
    var i := FirstVisible(text, 0);
    assert Visible(text) <==> i < |text| by {
      if i < |text| {
        assert text[i] in text;
      }
    }
  }

  /** Every line followed by LF, or by CR LF where `crs` says so, then the last one. */
  function Written(lines: seq<seq<byte>>, crs: seq<bool>, last: seq<byte>): seq<byte>
    requires |lines| == |crs|
  {
    if lines == [] then last else lines[0] + Cr(crs[0]) + [LF] + Written(lines[1..], crs[1..], last)
  }

  function Cr(cr: bool): seq<byte> {
    if cr then [CR] else []
  }

  predicate IsLine(line: seq<byte>) {
    LF !in line && (line != [] ==> line[|line| - 1] != CR)
  }

  lemma StripsOneCr(line: seq<byte>, cr: bool)
    requires IsLine(line)
    ensures StripCr(line + Cr(cr)) == line && LF !in line + Cr(cr)
  {
    assert line + [] == line && (line + [CR])[..|line|] == line;
  }

  lemma PayloadsOfLine(lossy: Lossy, line: seq<byte>, rest: seq<byte>)
    requires LF !in line
    ensures AllPayloads(lossy, line + [LF] + rest) == NonBlank(lossy(StripCr(line))) + AllPayloads(lossy, rest)
  {
    SplitFirst(line, rest);
    PayloadsOfFirst(lossy, line, SplitLf(rest).0);
    Regroup(NonBlank(lossy(StripCr(line))), Payloads(lossy, SplitLf(rest).0), NonBlank(lossy(SplitLf(rest).1)));
  }

  lemma VisibleFirst(lossy: Lossy, line: seq<byte>, lines: seq<seq<byte>>)
    ensures VisibleTexts(lossy, [line] + lines) == NonBlank(lossy(line)) + VisibleTexts(lossy, lines)
  {
    TrimSees(lossy(line));
    assert ([line] + lines)[1..] == lines;
  }

  lemma LastComesBack(lossy: Lossy, last: seq<byte>)
    requires LF !in last
    ensures AllPayloads(lossy, last) == VisibleTexts(lossy, [last])
  {
    SplitUnterminated(last);
    VisibleFirst(lossy, last, []);
    assert [last] + [] == [last];
  }

  lemma LineComesBack(lossy: Lossy, line: seq<byte>, cr: bool, rest: seq<byte>, later: seq<seq<byte>>)
    requires IsLine(line) && AllPayloads(lossy, rest) == VisibleTexts(lossy, later)
    ensures AllPayloads(lossy, line + Cr(cr) + [LF] + rest) == VisibleTexts(lossy, [line] + later)
  {
    StripsOneCr(line, cr);
    PayloadsOfLine(lossy, line + Cr(cr), rest);
    VisibleFirst(lossy, line, later);
  }

  /** The payloads of a text are its lines, decoded, as far as there is something to
      see in them, whichever way each is terminated, the last one with or without. */
  lemma {:induction false} LinesComeBack(lossy: Lossy, lines: seq<seq<byte>>, crs: seq<bool>, last: seq<byte>)
    requires |lines| == |crs| && (forall line <- lines :: IsLine(line)) && LF !in last
    ensures AllPayloads(lossy, Written(lines, crs, last)) == VisibleTexts(lossy, lines + [last])
    decreases |lines|
  {
    if lines == [] {
      assert lines + [last] == [last];
      LastComesBack(lossy, last);
    } else {
      assert lines[0] in lines && forall line <- lines[1..] :: line in lines;
      LinesComeBack(lossy, lines[1..], crs[1..], last);
      LineComesBack(lossy, lines[0], crs[0], Written(lines[1..], crs[1..], last), lines[1..] + [last]);
      assert lines + [last] == [lines[0]] + (lines[1..] + [last]);
    }
  }
}
