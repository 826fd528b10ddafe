/**
 What a consumer of the chat-completions stream is told, against the payloads
 themselves: the texts, the tool-call deltas and the usage reports, their order,
 and the payload at which the stream ends.
 */
module ChatContent {
  import opened Prelude
  import opened AiEvents
  import opened ChatStream
  import Sse

  // ------------------------------------------------------------------
  // Where draining stops.
  // ------------------------------------------------------------------

  /** The end marker between blanks. */
  ghost predicate EndMarker(payload: string) {
    exists left: string, right: string :: Blank(left) && Blank(right) && payload == left + "[DONE]" + right
  }

  lemma MarkerEnds(payload: string)
    ensures IsDone(payload) <==> EndMarker(payload)
  {
    if IsDone(payload) {
      var left, right := TrimLeavesTheMiddle(payload);
      assert payload == left + "[DONE]" + right;
    } else if EndMarker(payload) {
      var left: string, right: string :| Blank(left) && Blank(right) && payload == left + "[DONE]" + right;
      TrimRemovesBlanks(left, "[DONE]", right);
    }
  }

  /** The chunks of the payloads ahead of the first end marker or malformed payload. */
  ghost function Decoded(decode: Decoder, queue: seq<string>): seq<ChatStreamChunk> {
    if queue == [] || EndMarker(queue[0]) || decode(queue[0]).Failure? then []
    else [decode(queue[0]).value] + Decoded(decode, queue[1..])
  }

  /** What is reported of the payload at which draining stops. */
  ghost predicate Reports(decode: Decoder, payload: string, d: Drained) {
    if EndMarker(payload) then d.done && d.error == None
    else !d.done && decode(payload).Failure?
         && d.error == Some(ProviderError("malformed stream chunk: " + decode(payload).error))
  }

  lemma {:induction false} DecodedAreTheFirst(decode: Decoder, queue: seq<string>)
    ensures var chunks := Decoded(decode, queue);
            && |chunks| <= |queue|
            && forall i :: 0 <= i < |chunks| ==> !EndMarker(queue[i]) && decode(queue[i]) == Success(chunks[i])
    decreases |queue|
  {
    if queue != [] && !EndMarker(queue[0]) && decode(queue[0]).Success? {
      var rest := queue[1..];
      DecodedAreTheFirst(decode, rest);
      assert forall i :: 0 <= i < |rest| ==> rest[i] == queue[i + 1];
    }
  }

  /** Draining takes the payloads ahead of the first that is the end marker or
      malformed, and that one, and reports it. */
  lemma {:induction false} DrainStops(decode: Decoder, queue: seq<string>, ids: CallIds)
    ensures var n, d := |Decoded(decode, queue)|, Drain(decode, queue, ids);
            && n <= |queue|
            && if n < |queue| then d.queue == queue[n + 1..] && Reports(decode, queue[n], d)
               else d.queue == [] && !d.done && d.error == None
    decreases |queue|
  {
    if queue != [] {
      MarkerEnds(queue[0]);
      if !EndMarker(queue[0]) && decode(queue[0]).Success? {
        var (next, _) := ChunkEvents(ids, decode(queue[0]).value);
        var rest := queue[1..];
        DrainStops(decode, rest, next);
      }
    }
  }

  // ------------------------------------------------------------------
  // Texts and usage reports.
  // ------------------------------------------------------------------

  /** The texts among a run of events. */
  function Texts(events: seq<StreamEvent>): seq<string> {
    if events == [] then [] else (if events[0].TextDelta? then [events[0].text] else []) + Texts(events[1..])
  }

  /** The usages reported in a run of events. */
  function Usages(events: seq<StreamEvent>): seq<Usage> {
    if events == [] then [] else (if events[0].UsageReport? then [events[0].usage] else []) + Usages(events[1..])
  }

  /** The contents of a run of choices, those that say something. */
  function Contents(choices: seq<ChunkChoice>): seq<string> {
    if choices == [] then [] else Content(choices[0].content) + Contents(choices[1..])
  }

  function Content(content: Option<string>): seq<string> {
    match content case None => [] case Some(text) => if text == "" then [] else [text]
  }

  /** The choices of a run of payloads. */
  function Choices(chunks: seq<ChatStreamChunk>): seq<ChunkChoice> {
    if chunks == [] then [] else chunks[0].choices + Choices(chunks[1..])
  }

  /** The token counts of a run of payloads. */
  function Counts(chunks: seq<ChatStreamChunk>): seq<Usage> {
    if chunks == [] then []
    else (match chunks[0].usage
          case None => []
          case Some(UsageWire(prompt, completion, None)) => [Usage(prompt, completion, 0)]
          case Some(UsageWire(prompt, completion, Some(cached))) => [Usage(prompt, completion, cached)])
         + Counts(chunks[1..])
  }

  lemma {:induction false} TextsConcat(a: seq<StreamEvent>, b: seq<StreamEvent>)
    ensures Texts(a + b) == Texts(a) + Texts(b)
    ensures Usages(a + b) == Usages(a) + Usages(b)
    decreases |a|
  {
    if a == [] {
      assert a + b == b;
    } else {
      assert (a + b)[1..] == a[1..] + b;
      TextsConcat(a[1..], b);
      Associative(if a[0].TextDelta? then [a[0].text] else [], Texts(a[1..]), Texts(b));
      Associative(if a[0].UsageReport? then [a[0].usage] else [], Usages(a[1..]), Usages(b));
    }
  }

  lemma {:induction false} ContentsConcat(a: seq<ChunkChoice>, b: seq<ChunkChoice>)
    ensures Contents(a + b) == Contents(a) + Contents(b)
    decreases |a|
  {
    if a == [] {
      assert a + b == b;
    } else {
      assert (a + b)[1..] == a[1..] + b;
      ContentsConcat(a[1..], b);
      Associative(Content(a[0].content), Contents(a[1..]), Contents(b));
    }
  }

  lemma {:induction false} CallsSayNothing(events: seq<StreamEvent>)
    requires forall e <- events :: e.ToolCallDelta?
    ensures Texts(events) == [] && Usages(events) == []
    decreases |events|
  {
    if events != [] {
      assert events[0] in events && forall e <- events[1..] :: e in events;
      CallsSayNothing(events[1..]);
    }
  }

  lemma TextsOfOne(choice: ChunkChoice)
    ensures Texts(TextEvents(choice)) == Contents([choice]) && Usages(TextEvents(choice)) == []
  {
    assert [choice][1..] == [];
    if TextEvents(choice) != [] {
      assert TextEvents(choice)[1..] == [];
    }
  }

  lemma {:induction false} ChoicesSay(ids: CallIds, choices: seq<ChunkChoice>)
    ensures Texts(ChoiceEvents(ids, choices).1) == Contents(choices)
    ensures Usages(ChoiceEvents(ids, choices).1) == []
    decreases |choices|
  {
    if choices != [] {
      var (next, deltas) := FragmentEvents(ids, choices[0].toolCalls);
      var text, more := TextEvents(choices[0]), ChoiceEvents(next, choices[1..]).1;
      ChoicesSay(next, choices[1..]);
      FragmentsAreCalls(ids, choices[0].toolCalls);
      CallsSayNothing(deltas);
      TextsOfOne(choices[0]);
      TextsConcat(text, deltas);
      TextsConcat(text + deltas, more);
      assert choices == [choices[0]] + choices[1..];
      ContentsConcat([choices[0]], choices[1..]);
    }
  }

  lemma ChunkSays(ids: CallIds, chunk: ChatStreamChunk)
    ensures Texts(ChunkEvents(ids, chunk).1) == Contents(chunk.choices)
    ensures Usages(ChunkEvents(ids, chunk).1) == Counts([chunk])
  {
    var usage := UsageEvents(chunk.usage);
    ChoicesSay(ids, chunk.choices);
    TextsConcat(ChoiceEvents(ids, chunk.choices).1, usage);
    assert [chunk][1..] == [];
    assert Texts(usage) == [] && Usages(usage) == Counts([chunk]) by {
      if usage != [] {
        assert usage[1..] == [];
      }
    }
  }

  lemma {:induction false} DrainSays(decode: Decoder, queue: seq<string>, ids: CallIds)
    ensures Texts(Drain(decode, queue, ids).events) == Contents(Choices(Decoded(decode, queue)))
    ensures Usages(Drain(decode, queue, ids).events) == Counts(Decoded(decode, queue))
    decreases |queue|
  {
    if queue != [] {
      MarkerEnds(queue[0]);
      if !IsDone(queue[0]) && decode(queue[0]).Success? {
        var chunk := decode(queue[0]).value;
        var (next, events) := ChunkEvents(ids, chunk);
        DrainSays(decode, queue[1..], next);
        ChunkSays(ids, chunk);
        TextsConcat(events, Drain(decode, queue[1..], next).events);
        DecodedFirst(chunk, Decoded(decode, queue[1..]));
      }
    }
  }

  lemma DecodedFirst(chunk: ChatStreamChunk, chunks: seq<ChatStreamChunk>)
    ensures Contents(Choices([chunk] + chunks)) == Contents(chunk.choices) + Contents(Choices(chunks))
    ensures Counts([chunk] + chunks) == Counts([chunk]) + Counts(chunks)
  {
    assert ([chunk] + chunks)[1..] == chunks && [chunk][1..] == [];
    ContentsConcat(chunk.choices, Choices(chunks));
  }

  // ------------------------------------------------------------------
  // Tool-call deltas, without a table of ids.
  // ------------------------------------------------------------------

  /** The id the latest fragment of a slot came with, or the one made up for it. */
  function IdOf(fragments: seq<ToolCallChunk>, slot: nat): string {
    if fragments == [] then "call_" + Decimal(slot)
    else
      var last := fragments[|fragments| - 1];
      if last.index == slot && last.id.Some? then last.id.value else IdOf(fragments[..|fragments| - 1], slot)
  }

  /** What a fragment with a name or some argument text tells under an id. */
  function DeltaOf(function_: Option<FunctionChunk>, id: string): seq<StreamEvent> {
    match function_
    case None => []
    case Some(FunctionChunk(None, None)) => []
    case Some(FunctionChunk(None, Some(text))) => if text == "" then [] else [ToolCallDelta(id, None, text)]
    case Some(FunctionChunk(Some(name), None)) => [ToolCallDelta(id, Some(name), "")]
    case Some(FunctionChunk(Some(name), Some(text))) => [ToolCallDelta(id, Some(name), text)]
  }

  function Deltas(fragments: seq<ToolCallChunk>): seq<StreamEvent> {
    if fragments == [] then []
    else
      var last := fragments[|fragments| - 1];
      Deltas(fragments[..|fragments| - 1]) + DeltaOf(last.function_, IdOf(fragments, last.index))
  }

  lemma {:induction false} TableHoldsIds(fragments: seq<ToolCallChunk>, slot: nat)
    ensures var ids := FragmentEvents(map[], fragments).0;
            IdOf(fragments, slot) == if slot in ids then ids[slot] else "call_" + Decimal(slot)
    decreases |fragments|
  {
    if fragments != [] {
      var init, last := fragments[..|fragments| - 1], fragments[|fragments| - 1];
      assert fragments == init + [last];
      TableHoldsIds(init, slot);
      FragmentsConcat(map[], init, [last]);
      OneFragment(FragmentEvents(map[], init).0, last);
    }
  }

  lemma OneFragment(ids: CallIds, fragment: ToolCallChunk)
    ensures FragmentEvents(ids, [fragment])
         == (ids[fragment.index := ResolveId(ids, fragment)], FragmentEvent(ids, fragment))
  {
    assert [fragment][1..] == [] && FragmentEvent(ids, fragment) + [] == FragmentEvent(ids, fragment);
  }

  lemma FragmentTells(ids: CallIds, fragment: ToolCallChunk)
    ensures FragmentEvent(ids, fragment) == DeltaOf(fragment.function_, ResolveId(ids, fragment))
  {}

  lemma IdOfLast(fragments: seq<ToolCallChunk>)
    requires fragments != []
    ensures var init, last := fragments[..|fragments| - 1], fragments[|fragments| - 1];
            IdOf(fragments, last.index) == ResolveId(FragmentEvents(map[], init).0, last)
  {
    TableHoldsIds(fragments[..|fragments| - 1], fragments[|fragments| - 1].index);
  }

  lemma {:induction false} FragmentsTell(fragments: seq<ToolCallChunk>)
    ensures FragmentEvents(map[], fragments).1 == Deltas(fragments)
    decreases |fragments|
  {
    if fragments != [] {
      var init, last := fragments[..|fragments| - 1], fragments[|fragments| - 1];
      assert fragments == init + [last];
      FragmentsTell(init);
      FragmentsConcat(map[], init, [last]);
      OneFragment(FragmentEvents(map[], init).0, last);
      FragmentTells(FragmentEvents(map[], init).0, last);
      IdOfLast(fragments);
    }
  }

  lemma {:induction false} QueueIsDecoded(decode: Decoder, queue: seq<string>)
    ensures QueueFragments(decode, queue) == ChoiceFragments(Choices(Decoded(decode, queue)))
    decreases |queue|
  {
    if queue != [] {
      MarkerEnds(queue[0]);
      if !IsDone(queue[0]) && decode(queue[0]).Success? {
        var chunk, rest := decode(queue[0]).value, Decoded(decode, queue[1..]);
        QueueIsDecoded(decode, queue[1..]);
        assert ([chunk] + rest)[1..] == rest;
        ChoiceFragmentsConcat(chunk.choices, Choices(rest));
      }
    }
  }

  lemma {:induction false} ChoiceFragmentsConcat(a: seq<ChunkChoice>, b: seq<ChunkChoice>)
    ensures ChoiceFragments(a + b) == ChoiceFragments(a) + ChoiceFragments(b)
    decreases |a|
  {
    if a == [] {
      assert a + b == b;
    } else {
      assert (a + b)[1..] == a[1..] + b;
      ChoiceFragmentsConcat(a[1..], b);
      Associative(a[0].toolCalls, ChoiceFragments(a[1..]), ChoiceFragments(b));
    }
  }

  // ------------------------------------------------------------------
  // The whole stream.
  // ------------------------------------------------------------------

  /** Every stream, in every chunking, malformed payloads and transport errors
      included: the texts, tool-call deltas and usages the consumer receives are, each
      in order, those of the payloads ahead of `[DONE]` or the first malformed one. */
  lemma {:induction false} ConsumerIsTold(decode: Decoder, lossy: Sse.Decoder, chunks: seq<Item>, tail: seq<Item>)
    requires forall item <- chunks :: item.Chunk?
    requires tail != [] ==> tail[0].TransportError?
    ensures var received := Received(RunAll(decode, lossy, Start(chunks + tail)));
            var payloads := Decoded(decode, Sse.Reference(lossy, Bytes(chunks)));
            && Texts(received) == Contents(Choices(payloads))
            && Calls(received) == Deltas(ChoiceFragments(Choices(payloads)))
            && Usages(received) == Counts(payloads)
  {
    var queue := Sse.Reference(lossy, Bytes(chunks));
    EveryStream(decode, lossy, chunks, tail);
    DrainSays(decode, queue, map[]);
    QueueIsFragments(decode, queue, map[]);
    QueueIsDecoded(decode, queue);
    FragmentsTell(QueueFragments(decode, queue));
  }

  /** And it ends in one `Done` at `[DONE]` or at the end of the bytes, in the decoder's
      complaint at a malformed payload, or in the transport's error. */
  lemma {:induction false} ConsumerIsToldTheEnd(
    decode: Decoder, lossy: Sse.Decoder, chunks: seq<Item>, tail: seq<Item>)
    requires forall item <- chunks :: item.Chunk?
    requires tail != [] ==> tail[0].TransportError?
    ensures var queue := Sse.Reference(lossy, Bytes(chunks));
            var n, end := |Decoded(decode, queue)|, FirstTerminal(RunAll(decode, lossy, Start(chunks + tail)));
            if n < |queue| && EndMarker(queue[n]) then end == Some(Success(Done))
            else if n < |queue| then
              && decode(queue[n]).Failure?
              && end == Some(Failure(ProviderError("malformed stream chunk: " + decode(queue[n]).error)))
            else if tail != [] then end == Some(Failure(Network(tail[0].reason)))
            else end == Some(Success(Done))
  {
    FedIsReference(lossy, Bytes(chunks));
    OutputBrings(decode, lossy, chunks, tail, Sse.FRESH, map[]);
    RunFromStart(decode, lossy, chunks + tail);
    DrainStops(decode, Sse.Reference(lossy, Bytes(chunks)), map[]);
  }

  // ------------------------------------------------------------------
  // The order within a payload.
  // ------------------------------------------------------------------

  /** Any text first, then tool-call deltas. */
  ghost predicate TextThenCalls(events: seq<StreamEvent>) {
    forall i :: 0 < i < |events| ==> events[i].ToolCallDelta?
  }

  lemma {:induction false} ChoicesSplit(ids: CallIds, a: seq<ChunkChoice>, b: seq<ChunkChoice>)
    ensures var first := ChoiceEvents(ids, a);
            ChoiceEvents(ids, a + b) == (ChoiceEvents(first.0, b).0, first.1 + ChoiceEvents(first.0, b).1)
    decreases |a|
  {
    if a == [] {
      assert a + b == b && [] + ChoiceEvents(ids, b).1 == ChoiceEvents(ids, b).1;
    } else {
      assert (a + b)[0] == a[0] && (a + b)[1..] == a[1..] + b;
      var (next, deltas) := FragmentEvents(ids, a[0].toolCalls);
      ChoicesSplit(next, a[1..], b);
      var rest := ChoiceEvents(next, a[1..]);
      Associative(TextEvents(a[0]) + deltas, rest.1, ChoiceEvents(rest.0, b).1);
    }
  }

  lemma OneChoice(ids: CallIds, choice: ChunkChoice)
    ensures ChoiceEvents(ids, [choice]) == (FragmentEvents(ids, choice.toolCalls).0,
                                            TextEvents(choice) + FragmentEvents(ids, choice.toolCalls).1)
  {
    var text, deltas := TextEvents(choice), FragmentEvents(ids, choice.toolCalls).1;
    assert [choice][1..] == [] && text + deltas + [] == text + deltas;
  }

  /** A choice's events stand between those of the choices around it, its text ahead
      of its deltas, and the usage report behind all of them. */
  lemma {:induction false} PayloadInOrder(
    ids: CallIds, before: seq<ChunkChoice>, choice: ChunkChoice, after: seq<ChunkChoice>, usage: Option<UsageWire>)
    ensures var first := ChunkEvents(ids, ChatStreamChunk(before, None));
            var own := ChunkEvents(first.0, ChatStreamChunk([choice], None));
            var later := ChunkEvents(own.0, ChatStreamChunk(after, None));
            var last := ChunkEvents(later.0, ChatStreamChunk([], usage)).1;
            && ChunkEvents(ids, ChatStreamChunk(before + [choice] + after, usage)).1 == first.1 + own.1 + later.1 + last
            && TextThenCalls(own.1) && |last| == |Usages(last)|
  {
    var first := ChoiceEvents(ids, before);
    var own := ChoiceEvents(first.0, [choice]);
    ChoicesSplit(ids, before + [choice], after);
    ChoicesSplit(ids, before, [choice]);
    OneChoice(first.0, choice);
    FragmentsAreCalls(first.0, choice.toolCalls);
    var later := ChoiceEvents(own.0, after);
    assert first.1 + [] == first.1 && own.1 + [] == own.1 && later.1 + [] == later.1;
    assert [] + UsageEvents(usage) == UsageEvents(usage);
    if UsageEvents(usage) != [] {
      assert UsageEvents(usage)[1..] == [];
    }
  }
}
