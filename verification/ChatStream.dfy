/**
 The streaming pump of the chat-completions adapter: bytes into the SSE parser,
 payloads into the chunk decoder, and a queue of events towards the consumer.
 */
module ChatStream {
  import opened Prelude
  import opened AiEvents
  import Sse

  datatype FunctionChunk = FunctionChunk(name: Option<string>, arguments: Option<string>)
  datatype ToolCallChunk = ToolCallChunk(index: nat, id: Option<string>, function_: Option<FunctionChunk>)
  datatype ChunkChoice = ChunkChoice(content: Option<string>, toolCalls: seq<ToolCallChunk>)
  datatype UsageWire = UsageWire(promptTokens: u32, completionTokens: u32, cachedTokens: Option<u32>)
  datatype ChatStreamChunk = ChatStreamChunk(choices: seq<ChunkChoice>, usage: Option<UsageWire>)

  /** The JSON decoder for one payload; nothing is assumed about it. */
  type Decoder = string -> Result<ChatStreamChunk, string>

  type CallIds = map<nat, string>

  // ------------------------------------------------------------------
  // Decoding one payload.
  // ------------------------------------------------------------------

  function SyntheticId(index: nat): string {
    "call_" + Decimal(index)
  }

  function ResolveId(ids: CallIds, fragment: ToolCallChunk): string {
    if fragment.id.Some? then fragment.id.value
    else if fragment.index in ids then ids[fragment.index]
    else SyntheticId(fragment.index)
  }

  /** The argument text a fragment carries. */
  function FragmentArguments(fragment: ToolCallChunk): string {
    if fragment.function_.Some? && fragment.function_.value.arguments.Some?
    then fragment.function_.value.arguments.value else ""
  }

  function FragmentName(fragment: ToolCallChunk): Option<string> {
    if fragment.function_.Some? then fragment.function_.value.name else None
  }

  function FragmentEvent(ids: CallIds, fragment: ToolCallChunk): seq<StreamEvent> {
    if FragmentName(fragment).None? && FragmentArguments(fragment) == "" then []
    else [ToolCallDelta(ResolveId(ids, fragment), FragmentName(fragment), FragmentArguments(fragment))]
  }

  function FragmentEvents(ids: CallIds, fragments: seq<ToolCallChunk>): (CallIds, seq<StreamEvent>)
    decreases |fragments|
  {
    if fragments == [] then (ids, [])
    else
      var next := ids[fragments[0].index := ResolveId(ids, fragments[0])];
      var (last, more) := FragmentEvents(next, fragments[1..]);
      (last, FragmentEvent(ids, fragments[0]) + more)
  }

  function TextEvents(choice: ChunkChoice): seq<StreamEvent> {
    if choice.content.Some? && choice.content.value != "" then [TextDelta(choice.content.value)] else []
  }

  function ChoiceEvents(ids: CallIds, choices: seq<ChunkChoice>): (CallIds, seq<StreamEvent>)
    decreases |choices|
  {
    if choices == [] then (ids, [])
    else
      var (next, deltas) := FragmentEvents(ids, choices[0].toolCalls);
      var (last, more) := ChoiceEvents(next, choices[1..]);
      (last, TextEvents(choices[0]) + deltas + more)
  }

  function UsageEvents(usage: Option<UsageWire>): seq<StreamEvent> {
    match usage
    case None => []
    case Some(u) =>
      [UsageReport(Usage(u.promptTokens, u.completionTokens, if u.cachedTokens.Some? then u.cachedTokens.value else 0))]
  }

  function ChunkEvents(ids: CallIds, chunk: ChatStreamChunk): (CallIds, seq<StreamEvent>) {
    var (next, events) := ChoiceEvents(ids, chunk.choices);
    (next, events + UsageEvents(chunk.usage))
  }

  predicate IsDone(payload: string) {
    Trim(payload) == "[DONE]"
  }

  function Malformed(reason: string): AiError {
    ProviderError("malformed stream chunk: " + reason)
  }

  /** The effect of decoding a queue of payloads: what is left of the queue, the
      call ids, the events decoded, and how it stopped. */
  datatype Drained = Drained(queue: seq<string>, ids: CallIds, events: seq<StreamEvent>, done: bool, error: Option<AiError>)

  function Drain(decode: Decoder, queue: seq<string>, ids: CallIds): Drained
    decreases |queue|
  {
    if queue == [] then Drained([], ids, [], false, None)
    else if IsDone(queue[0]) then Drained(queue[1..], ids, [], true, None)
    else match decode(queue[0])
      case Failure(reason) => Drained(queue[1..], ids, [], false, Some(Malformed(reason)))
      case Success(chunk) =>
        var (next, events) := ChunkEvents(ids, chunk);
        var rest := Drain(decode, queue[1..], next);
        rest.(events := events + rest.events)
  }

  function After(events: seq<StreamEvent>, d: Drained): Drained {
    d.(events := events + d.events)
  }

  lemma FragmentUnfolds(ids: CallIds, fragments: seq<ToolCallChunk>, before: seq<StreamEvent>)
    requires fragments != []
    ensures var (last, events) := FragmentEvents(ids, fragments);
            var next := ids[fragments[0].index := ResolveId(ids, fragments[0])];
            && FragmentEvents(next, fragments[1..]).0 == last
            && before + events == before + FragmentEvent(ids, fragments[0]) + FragmentEvents(next, fragments[1..]).1
            && before + [] == before
  {}

  lemma Regroup(a: seq<StreamEvent>, b: seq<StreamEvent>, c: seq<StreamEvent>, d: seq<StreamEvent>)
    ensures a + (b + c + d) == a + b + c + d
  {}

  lemma ChoiceUnfolds(ids: CallIds, choices: seq<ChunkChoice>, before: seq<StreamEvent>)
    requires choices != []
    ensures var (next, deltas) := FragmentEvents(ids, choices[0].toolCalls);
            && ChoiceEvents(next, choices[1..]).0 == ChoiceEvents(ids, choices).0
            && before + ChoiceEvents(ids, choices).1
               == before + TextEvents(choices[0]) + deltas + ChoiceEvents(next, choices[1..]).1
  {
    var (next, deltas) := FragmentEvents(ids, choices[0].toolCalls);
    Regroup(before, TextEvents(choices[0]), deltas, ChoiceEvents(next, choices[1..]).1);
  }

  lemma DrainUnfolds(decode: Decoder, queue: seq<string>, ids: CallIds, before: seq<StreamEvent>)
    requires queue != []
    ensures IsDone(queue[0]) ==> Drain(decode, queue, ids) == Drained(queue[1..], ids, [], true, None)
    ensures !IsDone(queue[0]) && decode(queue[0]).Failure? ==>
              Drain(decode, queue, ids) == Drained(queue[1..], ids, [], false, Some(Malformed(decode(queue[0]).error)))
    ensures !IsDone(queue[0]) && decode(queue[0]).Success? ==>
              var (next, events) := ChunkEvents(ids, decode(queue[0]).value);
              After(before, Drain(decode, queue, ids)) == After(before + events, Drain(decode, queue[1..], next))
  {
    if !IsDone(queue[0]) && decode(queue[0]).Success? {
      var (next, events) := ChunkEvents(ids, decode(queue[0]).value);
      DrainGood(decode, queue, ids);
      AfterAfter(before, events, Drain(decode, queue[1..], next));
    }
  }

  lemma DrainGood(decode: Decoder, queue: seq<string>, ids: CallIds)
    requires queue != [] && !IsDone(queue[0]) && decode(queue[0]).Success?
    ensures var (next, events) := ChunkEvents(ids, decode(queue[0]).value);
            Drain(decode, queue, ids) == After(events, Drain(decode, queue[1..], next))
  {}

  lemma AfterAfter(a: seq<StreamEvent>, b: seq<StreamEvent>, d: Drained)
    ensures After(a, After(b, d)) == After(a + b, d)
  {
    assert a + (b + d.events) == a + b + d.events;
  }

  // ------------------------------------------------------------------
  // The pump.
  // ------------------------------------------------------------------

  datatype State = State(
    upstream: seq<Item>,
    parser: Sse.State,
    pending: seq<StreamEvent>,
    ids: CallIds,
    finished: bool,
    doneEmitted: bool)

  function Start(upstream: seq<Item>): State {
    State(upstream, Sse.FRESH, [], map[], false, false)
  }

  /** The state after one chunk was fed and its payloads drained. */
  function Ingest(decode: Decoder, lossy: Sse.Decoder, s: State, bytes: seq<byte>): (State, Option<AiError>) {
    var fed := Sse.FeedAll(lossy, s.parser, bytes);
    var d := Drain(decode, fed.completed, s.ids);
    (State(s.upstream, fed.(completed := d.queue), s.pending + d.events, d.ids,
           s.finished || d.done || d.error.Some?, s.doneEmitted || d.error.Some?),
     d.error)
  }

  function Pump(decode: Decoder, lossy: Sse.Decoder, s: State): (r: Option<(Emission, State)>)
    ensures r.Some? ==>
      var t := r.value.1;
      || |t.upstream| < |s.upstream|
      || (t.upstream == s.upstream && Backlog(t) < Backlog(s))
    decreases |s.upstream|, if s.finished then 0 else 1
  {
    if s.pending != [] then Some((Success(s.pending[0]), s.(pending := s.pending[1..])))
    else if s.finished then
      (if s.doneEmitted then None else Some((Success(Done), s.(doneEmitted := true))))
    else if s.upstream == [] then Pump(decode, lossy, s.(finished := true))
    else match s.upstream[0]
      case TransportError(reason) =>
        Some((Failure(Network(reason)), s.(upstream := s.upstream[1..], finished := true, doneEmitted := true)))
      case Chunk(bytes) =>
        var (t, error) := Ingest(decode, lossy, s.(upstream := s.upstream[1..]), bytes);
        if error.Some? then Some((Failure(error.value), t)) else Pump(decode, lossy, t)
  }

  function Backlog(s: State): nat {
    |s.pending| + if s.doneEmitted then 0 else 1
  }

  /** Everything a consumer that keeps pumping receives. */
  function RunAll(decode: Decoder, lossy: Sse.Decoder, s: State): seq<Emission>
    decreases |s.upstream|, Backlog(s)
  {
    match Pump(decode, lossy, s)
    case None => []
    case Some((item, t)) => [item] + RunAll(decode, lossy, t)
  }

  class StreamState {
    const decode: Decoder
    const parser: Sse.SseParser
    var byteStream: seq<Item>
    var pending: seq<StreamEvent>
    var toolCallIds: CallIds
    var finished: bool
    var doneEmitted: bool

    ghost function View(): State
      reads this, parser
    {
      State(byteStream, parser.View(), pending, toolCallIds, finished, doneEmitted)
    }

    constructor (byteStream: seq<Item>, decode: Decoder, lossy: Sse.Decoder)
      ensures View() == Start(byteStream) && this.decode == decode
      ensures parser.lossy == lossy && fresh(parser)
    {
      this.decode := decode;
      this.parser := new Sse.SseParser(lossy);
      this.byteStream := byteStream;
      pending, toolCallIds, finished, doneEmitted := [], map[], false, false;
    }

    method PumpOnce() returns (item: Option<Emission>)
      modifies this, parser
      ensures match Pump(decode, parser.lossy, old(View()))
              case None => item == None
              case Some((emission, after)) => item == Some(emission) && View() == after
    {
      ghost var initial := View();
      while true
        invariant Pump(decode, parser.lossy, View()) == Pump(decode, parser.lossy, initial)
        decreases |byteStream|, if finished then 0 else 1
      {
        if pending != [] {
          item := Some(Success(pending[0]));
          pending := pending[1..];
          return;
        }
        if finished {
          if doneEmitted {
            return None;
          }
          doneEmitted := true;
          return Some(Success(Done));
        }
        if byteStream == [] {
          finished := true;
        } else {
          var next := byteStream[0];
          byteStream := byteStream[1..];
          match next {
            case TransportError(reason) =>
              finished, doneEmitted := true, true;
              return Some(Failure(Network(reason)));
            case Chunk(bytes) =>
              var error := ReadChunk(bytes);
              if error.Some? {
                return Some(Failure(error.value));
              }
          }
        }
      }
    }

    /** Feeds one chunk and drains what it completed; a malformed payload ends the stream. */
    method ReadChunk(bytes: seq<byte>) returns (error: Option<AiError>)
      modifies this, parser
      ensures (View(), error) == Ingest(decode, parser.lossy, old(View()), bytes)
    {
      parser.Feed(bytes);
      error := DrainEvents();
      if error.Some? {
        finished, doneEmitted := true, true;
      }
    }

    method DrainEvents() returns (error: Option<AiError>)
      modifies this`pending, this`toolCallIds, this`finished, parser`completed
      ensures var d := Drain(decode, old(parser.completed), old(toolCallIds));
              && error == d.error
              && parser.completed == d.queue
              && pending == old(pending) + d.events
              && toolCallIds == d.ids
              && finished == (old(finished) || d.done)
    {
      ghost var target := After(pending, Drain(decode, parser.completed, toolCallIds));
      while true
        invariant finished == old(finished)
        invariant After(pending, Drain(decode, parser.completed, toolCallIds)) == target
        decreases |parser.completed|
      {
        ghost var queue, ids, before := parser.completed, toolCallIds, pending;
        var payload := parser.NextEvent();
        if payload.None? {
          return None;
        }
        DrainUnfolds(decode, queue, ids, before);
        var stop;
        stop, error := DecodePayload(payload.value);
        if stop {
          return;
        }
      }
    }

    /** The body of the draining loop; `stop` leaves the loop. */
    method DecodePayload(payload: string) returns (stop: bool, error: Option<AiError>)
      modifies this`pending, this`toolCallIds, this`finished
      ensures stop == (IsDone(payload) || decode(payload).Failure?)
      ensures finished == (old(finished) || IsDone(payload))
      ensures error == if stop && !IsDone(payload) then Some(Malformed(decode(payload).error)) else None
      ensures stop ==> pending == old(pending) && toolCallIds == old(toolCallIds)
      ensures !stop ==> var (ids, events) := ChunkEvents(old(toolCallIds), decode(payload).value);
                        toolCallIds == ids && pending == old(pending) + events
    {
      if IsDone(payload) {
        finished := true;
        return true, None;
      }
      var chunk := decode(payload);
      if chunk.Failure? {
        return true, Some(Malformed(chunk.error));
      }
      PushChunk(chunk.value);
      return false, None;
    }

    method PushChunk(chunk: ChatStreamChunk)
      modifies this`pending, this`toolCallIds
      ensures toolCallIds == ChunkEvents(old(toolCallIds), chunk).0
      ensures pending == old(pending) + ChunkEvents(old(toolCallIds), chunk).1
    {
      PushChoices(chunk.choices);
      if chunk.usage.Some? {
        pending := pending + UsageEvents(chunk.usage);
      }
    }

    method PushChoices(choices: seq<ChunkChoice>)
      modifies this`pending, this`toolCallIds
      ensures toolCallIds == ChoiceEvents(old(toolCallIds), choices).0
      ensures pending == old(pending) + ChoiceEvents(old(toolCallIds), choices).1
    {
      ghost var all := ChoiceEvents(toolCallIds, choices);
      assert choices[0..] == choices;
      for i := 0 to |choices|
        invariant all.0 == ChoiceEvents(toolCallIds, choices[i..]).0
        invariant old(pending) + all.1 == pending + ChoiceEvents(toolCallIds, choices[i..]).1
      {
        var choice := choices[i];
        ChoiceUnfolds(toolCallIds, choices[i..], pending);
        assert choices[i..][1..] == choices[i + 1..];
        if choice.content.Some? && choice.content.value != "" {
          pending := pending + [TextDelta(choice.content.value)];
        } else {
          assert pending + [] == pending;
        }
        PushFragments(choice.toolCalls);
      }
    }

    method PushFragments(fragments: seq<ToolCallChunk>)
      modifies this`pending, this`toolCallIds
      ensures toolCallIds == FragmentEvents(old(toolCallIds), fragments).0
      ensures pending == old(pending) + FragmentEvents(old(toolCallIds), fragments).1
    {
      ghost var all := FragmentEvents(toolCallIds, fragments);
      assert fragments[0..] == fragments;
      for i := 0 to |fragments|
        invariant all.0 == FragmentEvents(toolCallIds, fragments[i..]).0
        invariant old(pending) + all.1 == pending + FragmentEvents(toolCallIds, fragments[i..]).1
      {
        FragmentUnfolds(toolCallIds, fragments[i..], pending);
        assert fragments[i..][1..] == fragments[i + 1..];
        var event := FragmentToEvent(fragments[i]);
        if event.Some? {
          pending := pending + [event.value];
        }
      }
    }

    method FragmentToEvent(fragment: ToolCallChunk) returns (event: Option<StreamEvent>)
      modifies this`toolCallIds
      ensures toolCallIds == old(toolCallIds)[fragment.index := ResolveId(old(toolCallIds), fragment)]
      ensures FragmentEvent(old(toolCallIds), fragment) == if event.Some? then [event.value] else []
    {
      var callId;
      if fragment.id.Some? {
        callId := fragment.id.value;
        toolCallIds := toolCallIds[fragment.index := callId];
      } else if fragment.index in toolCallIds {
        callId := toolCallIds[fragment.index];
      } else {
        callId := SyntheticId(fragment.index);
        toolCallIds := toolCallIds[fragment.index := callId];
      }
      if FragmentName(fragment).None? && FragmentArguments(fragment) == "" {
        return None;
      }
      event := Some(ToolCallDelta(callId, FragmentName(fragment), FragmentArguments(fragment)));
    }
  }

  // ------------------------------------------------------------------
  // Everything the consumer receives, as a function of the upstream.
  // ------------------------------------------------------------------

  /** The emissions of a stream with nothing queued, chunk by chunk. */
  function Output(decode: Decoder, lossy: Sse.Decoder, items: seq<Item>, parser: Sse.State, ids: CallIds): seq<Emission>
    decreases |items|
  {
    if items == [] then [Success(Done)]
    else match items[0]
      case TransportError(reason) => [Failure(Network(reason))]
      case Chunk(bytes) =>
        var fed := Sse.FeedAll(lossy, parser, bytes);
        var d := Drain(decode, fed.completed, ids);
        if d.error.Some? then [Failure(d.error.value)] + Ok(d.events)
        else if d.done then Ok(d.events) + [Success(Done)]
        else Ok(d.events) + Output(decode, lossy, items[1..], fed.(completed := d.queue), d.ids)
  }

  /** The pending queue first, then what the terminal flags and upstream allow. */
  function Rest(decode: Decoder, lossy: Sse.Decoder, s: State): seq<Emission> {
    if !s.finished then Output(decode, lossy, s.upstream, s.parser, s.ids)
    else if s.doneEmitted then [] else [Success(Done)]
  }

  lemma {:induction false} PumpIs(decode: Decoder, lossy: Sse.Decoder, s: State)
    requires s.doneEmitted ==> s.finished
    ensures match Pump(decode, lossy, s)
            case None => Ok(s.pending) + Rest(decode, lossy, s) == []
            case Some((item, t)) =>
              && (t.doneEmitted ==> t.finished)
              && Ok(s.pending) + Rest(decode, lossy, s) == [item] + (Ok(t.pending) + Rest(decode, lossy, t))
    decreases |s.upstream|, if s.finished then 0 else 1
  {
    if s.pending != [] {
      var t := s.(pending := s.pending[1..]);
      assert s.pending == [s.pending[0]] + t.pending;
      OkConcat([s.pending[0]], t.pending);
      assert Ok([s.pending[0]]) == [Success(s.pending[0])];
      assert [Success(s.pending[0])] + Ok(t.pending) + Rest(decode, lossy, t)
          == [Success(s.pending[0])] + (Ok(t.pending) + Rest(decode, lossy, t));
    } else if !s.finished {
      PumpReads(decode, lossy, s);
    }
  }

  lemma OutputAfterIngest(decode: Decoder, lossy: Sse.Decoder, s: State)
    requires !s.doneEmitted && !s.finished && s.pending == [] && s.upstream != [] && s.upstream[0].Chunk?
    ensures var (t, error) := Ingest(decode, lossy, s.(upstream := s.upstream[1..]), s.upstream[0].bytes);
            var later := Ok(t.pending) + Rest(decode, lossy, t);
            Output(decode, lossy, s.upstream, s.parser, s.ids) ==
            if error.Some? then [Failure(error.value)] + later else later
  {
    var (t, error) := Ingest(decode, lossy, s.(upstream := s.upstream[1..]), s.upstream[0].bytes);
    var d := Drain(decode, Sse.FeedAll(lossy, s.parser, s.upstream[0].bytes).completed, s.ids);
    assert t.pending == d.events by {
      assert [] + d.events == d.events;
    }
    if error.Some? {
      assert Rest(decode, lossy, t) == [];
      assert Ok(d.events) + [] == Ok(d.events);
    }
  }

  lemma {:induction false} PumpReads(decode: Decoder, lossy: Sse.Decoder, s: State)
    requires !s.doneEmitted && !s.finished && s.pending == []
    ensures match Pump(decode, lossy, s)
            case None => Output(decode, lossy, s.upstream, s.parser, s.ids) == []
            case Some((item, t)) =>
              && (t.doneEmitted ==> t.finished)
              && Output(decode, lossy, s.upstream, s.parser, s.ids) == [item] + (Ok(t.pending) + Rest(decode, lossy, t))
    decreases |s.upstream|, 0
  {
    if s.upstream != [] && s.upstream[0].Chunk? {
      var (t, error) := Ingest(decode, lossy, s.(upstream := s.upstream[1..]), s.upstream[0].bytes);
      OutputAfterIngest(decode, lossy, s);
      if error.None? {
        PumpIs(decode, lossy, t);
        assert Pump(decode, lossy, s) == Pump(decode, lossy, t);
      }
    } else if s.upstream == [] {
      var t := s.(finished := true);
      assert Pump(decode, lossy, s) == Pump(decode, lossy, t);
    }
  }

  lemma {:induction false} RunAllIs(decode: Decoder, lossy: Sse.Decoder, s: State)
    requires s.doneEmitted ==> s.finished
    ensures RunAll(decode, lossy, s) == Ok(s.pending) + Rest(decode, lossy, s)
    decreases |s.upstream|, Backlog(s)
  {
    PumpIs(decode, lossy, s);
    match Pump(decode, lossy, s) {
      case None =>
      case Some((_, t)) => RunAllIs(decode, lossy, t);
    }
  }

  /** A consumer that keeps pumping receives the output of the whole upstream. */
  lemma {:induction false} RunFromStart(decode: Decoder, lossy: Sse.Decoder, items: seq<Item>)
    ensures RunAll(decode, lossy, Start(items)) == Output(decode, lossy, items, Sse.FRESH, map[])
  {
    RunAllIs(decode, lossy, Start(items));
    RestAtStart(decode, lossy, items);
  }

  lemma RestAtStart(decode: Decoder, lossy: Sse.Decoder, items: seq<Item>)
    ensures Ok(Start(items).pending) + Rest(decode, lossy, Start(items)) == Output(decode, lossy, items, Sse.FRESH, map[])
  {
    var out := Output(decode, lossy, items, Sse.FRESH, map[]);
    assert Ok([]) + out == out;
  }

  lemma {:induction false} NeverDecodesDone(decode: Decoder, queue: seq<string>, ids: CallIds)
    ensures Done !in Drain(decode, queue, ids).events
    decreases |queue|
  {
    if queue != [] && !IsDone(queue[0]) && decode(queue[0]).Success? {
      var chunk := decode(queue[0]).value;
      var (next, events) := ChunkEvents(ids, chunk);
      ChoicesNeverDone(ids, chunk.choices);
      NeverDecodesDone(decode, queue[1..], next);
    }
  }

  lemma {:induction false} ChoicesNeverDone(ids: CallIds, choices: seq<ChunkChoice>)
    ensures Done !in ChoiceEvents(ids, choices).1
    decreases |choices|
  {
    if choices != [] {
      FragmentsNeverDone(ids, choices[0].toolCalls);
      ChoicesNeverDone(FragmentEvents(ids, choices[0].toolCalls).0, choices[1..]);
    }
  }

  lemma {:induction false} FragmentsNeverDone(ids: CallIds, fragments: seq<ToolCallChunk>)
    ensures Done !in FragmentEvents(ids, fragments).1
    decreases |fragments|
  {
    if fragments != [] {
      FragmentsNeverDone(ids[fragments[0].index := ResolveId(ids, fragments[0])], fragments[1..]);
    }
  }

  lemma {:induction false} OutputEndsOnce(
    decode: Decoder, lossy: Sse.Decoder, items: seq<Item>, parser: Sse.State, ids: CallIds)
    ensures Terminals(Output(decode, lossy, items, parser, ids)) == 1
    decreases |items|
  {
    if items != [] && items[0].Chunk? {
      var fed := Sse.FeedAll(lossy, parser, items[0].bytes);
      var d := Drain(decode, fed.completed, ids);
      NeverDecodesDone(decode, fed.completed, ids);
      NoTerminals(d.events);
      if d.error.Some? {
        TerminalsConcat([Failure(d.error.value)], Ok(d.events));
      } else if d.done {
        TerminalsConcat(Ok(d.events), [Success(Done)]);
      } else {
        var parser' := fed.(completed := d.queue);
        OutputEndsOnce(decode, lossy, items[1..], parser', d.ids);
        TerminalsConcat(Ok(d.events), Output(decode, lossy, items[1..], parser', d.ids));
      }
    }
  }

  /** In every run, malformed payloads and transport errors included, exactly
      one terminal item is ever produced: one `Done` or one error. */
  lemma {:induction false} ExactlyOneTerminal(decode: Decoder, lossy: Sse.Decoder, items: seq<Item>)
    ensures Terminals(RunAll(decode, lossy, Start(items))) == 1
  {
    RunFromStart(decode, lossy, items);
    OutputEndsOnce(decode, lossy, items, Sse.FRESH, map[]);
  }

  // ------------------------------------------------------------------
  // Well-formed streams: the chunking does not matter.
  // ------------------------------------------------------------------

  /** Draining a longer queue goes on where draining the first part ended. */
  function Onwards(decode: Decoder, d: Drained, more: seq<string>): Drained {
    if d.done || d.error.Some? then d.(queue := d.queue + more) else After(d.events, Drain(decode, more, d.ids))
  }

  lemma {:induction false} DrainConcat(decode: Decoder, a: seq<string>, b: seq<string>, ids: CallIds)
    ensures Drain(decode, a + b, ids) == Onwards(decode, Drain(decode, a, ids), b)
    ensures var d := Drain(decode, a, ids);
            !d.done && d.error.None? ==> d.queue == []
    decreases |a|
  {
    if a == [] {
      assert a + b == b;
      assert [] + Drain(decode, b, ids).events == Drain(decode, b, ids).events;
    } else {
      var whole := a + b;
      assert whole[0] == a[0] && whole[1..] == a[1..] + b;
      if !IsDone(a[0]) && decode(a[0]).Success? {
        var (next, events) := ChunkEvents(ids, decode(a[0]).value);
        var rest := Drain(decode, a[1..], next);
        DrainConcat(decode, a[1..], b, next);
        assert Drain(decode, a, ids) == After(events, rest);
        assert Drain(decode, whole, ids) == After(events, Onwards(decode, rest, b));
        AfterAfter(events, rest.events, Drain(decode, b, rest.ids));
      }
    }
  }

  /** What ends a stream: `[DONE]` or the end of the bytes, or a transport error. */
  function Ending(done: bool, tail: seq<Item>): Emission {
    if !done && tail != [] && tail[0].TransportError? then Failure(Network(tail[0].reason)) else Success(Done)
  }

  lemma OutputOfOne(decode: Decoder, lossy: Sse.Decoder, items: seq<Item>, parser: Sse.State, ids: CallIds)
    requires items != [] && items[0].Chunk?
    ensures var fed := Sse.FeedAll(lossy, parser, items[0].bytes);
            var d := Drain(decode, fed.completed, ids);
            Output(decode, lossy, items, parser, ids) ==
            if d.error.Some? then [Failure(d.error.value)] + Ok(d.events)
            else if d.done then Ok(d.events) + [Success(Done)]
            else Ok(d.events) + Output(decode, lossy, items[1..], fed.(completed := []), d.ids)
  {
    var fed := Sse.FeedAll(lossy, parser, items[0].bytes);
    DrainConcat(decode, fed.completed, [], ids);
  }

  lemma FedInTwo(lossy: Sse.Decoder, parser: Sse.State, a: seq<byte>, b: seq<byte>)
    ensures var fed := Sse.FeedAll(lossy, parser, a);
            Sse.FeedAll(lossy, parser, a + b).completed
            == fed.completed + Sse.FeedAll(lossy, fed.(completed := []), b).completed
  {
    var fed := Sse.FeedAll(lossy, parser, a);
    var cleared := fed.(completed := []);
    Sse.FeedConcat(lossy, parser, a, b);
    Sse.CompletedFrame(lossy, cleared, fed.completed, b);
    assert cleared.(completed := fed.completed + cleared.completed) == fed;
  }

  lemma OkThenEnding(a: seq<StreamEvent>, b: seq<StreamEvent>, ending: Emission)
    ensures Ok(a + b) + [ending] == Ok(a) + (Ok(b) + [ending])
  {
    OkConcat(a, b);
    assert Ok(a) + Ok(b) + [ending] == Ok(a) + (Ok(b) + [ending]);
  }

  lemma DrainInTwo(decode: Decoder, lossy: Sse.Decoder, parser: Sse.State, a: seq<byte>, b: seq<byte>, ids: CallIds)
    ensures var fed := Sse.FeedAll(lossy, parser, a);
            Drain(decode, Sse.FeedAll(lossy, parser, a + b).completed, ids)
            == Onwards(decode, Drain(decode, fed.completed, ids), Sse.FeedAll(lossy, fed.(completed := []), b).completed)
  {
    var fed := Sse.FeedAll(lossy, parser, a);
    FedInTwo(lossy, parser, a, b);
    DrainConcat(decode, fed.completed, Sse.FeedAll(lossy, fed.(completed := []), b).completed, ids);
  }

  /** Fed `bytes`, the upstream `items` yields the events drained, then the ending. */
  ghost predicate Delivers(decode: Decoder, lossy: Sse.Decoder, items: seq<Item>, bytes: seq<byte>, tail: seq<Item>,
                           parser: Sse.State, ids: CallIds)
  {
    var d := Drain(decode, Sse.FeedAll(lossy, parser, bytes).completed, ids);
    d.error.None? ==> Output(decode, lossy, items, parser, ids) == Ok(d.events) + [Ending(d.done, tail)]
  }

  lemma DeliversStep(decode: Decoder, lossy: Sse.Decoder, items: seq<Item>, later: seq<byte>, tail: seq<Item>,
                     parser: Sse.State, ids: CallIds)
    requires items != [] && items[0].Chunk?
    requires var fed := Sse.FeedAll(lossy, parser, items[0].bytes);
             Delivers(decode, lossy, items[1..], later, tail, fed.(completed := []), Drain(decode, fed.completed, ids).ids)
    ensures Delivers(decode, lossy, items, items[0].bytes + later, tail, parser, ids)
  {
    var d := Drain(decode, Sse.FeedAll(lossy, parser, items[0].bytes).completed, ids);
    DrainInTwo(decode, lossy, parser, items[0].bytes, later, ids);
    OutputOfOne(decode, lossy, items, parser, ids);
    if !d.done && d.error.None? {
      var fed := Sse.FeedAll(lossy, parser, items[0].bytes);
      var more := Drain(decode, Sse.FeedAll(lossy, fed.(completed := []), later).completed, d.ids);
      OkThenEnding(d.events, more.events, Ending(more.done, tail));
    }
  }

  lemma DeliversNothing(decode: Decoder, lossy: Sse.Decoder, tail: seq<Item>, parser: Sse.State, ids: CallIds)
    requires parser.completed == [] && (tail != [] ==> tail[0].TransportError?)
    ensures Delivers(decode, lossy, tail, [], tail, parser, ids)
  {
    assert Drain(decode, Sse.FeedAll(lossy, parser, []).completed, ids) == Drained([], ids, [], false, None);
    assert Ok([]) + [Ending(false, tail)] == [Ending(false, tail)];
  }

  lemma {:induction false} OutputOfChunks(
    decode: Decoder, lossy: Sse.Decoder, chunks: seq<Item>, tail: seq<Item>, parser: Sse.State, ids: CallIds)
    requires parser.completed == []
    requires forall item <- chunks :: item.Chunk?
    requires tail != [] ==> tail[0].TransportError?
    ensures Delivers(decode, lossy, chunks + tail, Bytes(chunks), tail, parser, ids)
    decreases |chunks|
  {
    if chunks == [] {
      DeliversNothing(decode, lossy, tail, parser, ids);
      assert chunks + tail == tail;
    } else {
      var rest, items := chunks[1..], chunks + tail;
      FirstChunk(chunks, tail);
      var fed := Sse.FeedAll(lossy, parser, items[0].bytes);
      var cleared := fed.(completed := []);
      var ids' := Drain(decode, fed.completed, ids).ids;
      OutputOfChunks(decode, lossy, rest, tail, cleared, ids');
      DeliversStep(decode, lossy, items, Bytes(rest), tail, parser, ids);
    }
  }

  /** With no malformed payload before the first `[DONE]`, every chunking of the
      bytes yields the decoded events up to `[DONE]`, then one `Done` - or, when
      the transport failed first, one error, last. */
  lemma {:induction false} ChunkingIsIrrelevant(
    decode: Decoder, lossy: Sse.Decoder, chunks: seq<Item>, tail: seq<Item>)
    requires forall item <- chunks :: item.Chunk?
    requires tail != [] ==> tail[0].TransportError?
    requires Drain(decode, Sse.Reference(lossy, Bytes(chunks)), map[]).error.None?
    ensures var d := Drain(decode, Sse.Reference(lossy, Bytes(chunks)), map[]);
            RunAll(decode, lossy, Start(chunks + tail)) == Ok(d.events) + [Ending(d.done, tail)]
  {
    FedIsReference(lossy, Bytes(chunks));
    OutputOfChunks(decode, lossy, chunks, tail, Sse.FRESH, map[]);
    RunFromStart(decode, lossy, chunks + tail);
  }

  // ------------------------------------------------------------------
  // Malformed payloads: when an error really is the last item.
  // ------------------------------------------------------------------

  /** The chunk that brings the first malformed payload also brings, before it,
      a payload that decodes to at least one event. */
  predicate GoodBeforeMalformed(decode: Decoder, lossy: Sse.Decoder, items: seq<Item>, parser: Sse.State, ids: CallIds)
    decreases |items|
  {
    items != [] && items[0].Chunk? &&
    var fed := Sse.FeedAll(lossy, parser, items[0].bytes);
    var d := Drain(decode, fed.completed, ids);
    if d.error.Some? then d.events != []
    else !d.done && GoodBeforeMalformed(decode, lossy, items[1..], fed.(completed := d.queue), d.ids)
  }

  predicate NothingFollowsError(out: seq<Emission>) {
    forall i :: 0 <= i < |out| - 1 ==> out[i].Success?
  }

  lemma SuccessesInFront(events: seq<StreamEvent>, rest: seq<Emission>)
    requires rest != []
    ensures NothingFollowsError(Ok(events) + rest) <==> NothingFollowsError(rest)
  {
    var out := Ok(events) + rest;
    assert forall i :: 0 <= i < |rest| ==> out[|events| + i] == rest[i];
    assert forall i :: |events| <= i < |out| ==> out[i] == rest[i - |events|];
  }

  lemma EventsBehindError(error: AiError, events: seq<StreamEvent>)
    ensures NothingFollowsError([Failure(error)] + Ok(events)) <==> events == []
  {
    assert ([Failure(error)] + Ok(events))[0].Failure?;
  }

  lemma {:induction false} OutputErrorIsLast(
    decode: Decoder, lossy: Sse.Decoder, items: seq<Item>, parser: Sse.State, ids: CallIds)
    ensures NothingFollowsError(Output(decode, lossy, items, parser, ids))
       <==> !GoodBeforeMalformed(decode, lossy, items, parser, ids)
    ensures Output(decode, lossy, items, parser, ids) != []
    decreases |items|
  {
    if items != [] && items[0].Chunk? {
      var fed := Sse.FeedAll(lossy, parser, items[0].bytes);
      var d := Drain(decode, fed.completed, ids);
      if d.error.Some? {
        EventsBehindError(d.error.value, d.events);
      } else if d.done {
        SuccessesInFront(d.events, [Success(Done)]);
      } else {
        var parser' := fed.(completed := d.queue);
        OutputErrorIsLast(decode, lossy, items[1..], parser', d.ids);
        SuccessesInFront(d.events, Output(decode, lossy, items[1..], parser', d.ids));
      }
    }
  }

  /** Nothing follows an error exactly when the chunk with the malformed payload
      queued no event ahead of it. */
  lemma {:induction false} ErrorIsLastExactlyWhen(decode: Decoder, lossy: Sse.Decoder, items: seq<Item>)
    ensures NothingFollowsError(RunAll(decode, lossy, Start(items)))
       <==> !GoodBeforeMalformed(decode, lossy, items, Sse.FRESH, map[])
  {
    RunFromStart(decode, lossy, items);
    OutputErrorIsLast(decode, lossy, items, Sse.FRESH, map[]);
  }

  lemma {:induction false} DrainGoodThenMalformed(decode: Decoder, a: string, b: string)
    requires !IsDone(a) && decode(a).Success? && !IsDone(b) && decode(b).Failure?
    ensures var d := Drain(decode, [a, b], map[]);
            d.error == Some(Malformed(decode(b).error)) && d.events == ChunkEvents(map[], decode(a).value).1
  {
    var (next, events) := ChunkEvents(map[], decode(a).value);
    assert [a, b][1..] == [b];
    DrainUnfolds(decode, [b], next, []);
    assert Drain(decode, [a, b], map[]) == After(events, Drain(decode, [b], next));
    assert events + [] == events;
  }

  /** A good payload and a malformed one in a single chunk: the error comes out
      first and the good payload's events after it. */
  lemma {:induction false} EventAfterError(
    decode: Decoder, lossy: Sse.Decoder, good: seq<byte>, bad: seq<byte>, a: string, b: string)
    requires good != [] && bad != [] && Sse.Unterminated(good) && Sse.Unterminated(bad)
    requires lossy(good) == "data: " + a && lossy(bad) == "data: " + b && a != "" && b != ""
    requires !IsDone(a) && decode(a).Success? && !IsDone(b) && decode(b).Failure?
    ensures var bytes := Sse.Write([good, [], bad, []], [Sse.Lf, Sse.Lf, Sse.Lf, Sse.Lf]);
            RunAll(decode, lossy, Start([Chunk(bytes)]))
            == [Failure(Malformed(decode(b).error))] + Ok(ChunkEvents(map[], decode(a).value).1)
  {
    var bytes := Sse.Write([good, [], bad, []], [Sse.Lf, Sse.Lf, Sse.Lf, Sse.Lf]);
    Sse.TwoEvents(lossy, good, bad, a, b);
    DrainGoodThenMalformed(decode, a, b);
    RunFromStart(decode, lossy, [Chunk(bytes)]);
    OutputOfOne(decode, lossy, [Chunk(bytes)], Sse.FRESH, map[]);
  }

  lemma {:induction false} FedIsReference(lossy: Sse.Decoder, bytes: seq<byte>)
    ensures Sse.FeedAll(lossy, Sse.FRESH, bytes).completed == Sse.Reference(lossy, bytes)
  {
    var whole := [Sse.Feed(bytes)];
    var fed := Sse.FeedAll(lossy, Sse.FRESH, bytes);
    assert whole[..0] == [];
    assert Sse.Input(whole) == [] + bytes == bytes;
    Sse.ParsesTheReference(lossy, whole);
    assert Sse.Run(lossy, whole) == (fed, []);
    assert [] + fed.completed == fed.completed;
  }

  /** The events a consumer receives, endings and errors aside. */
  function Received(out: seq<Emission>): seq<StreamEvent> {
    if out == [] then [] else (if IsTerminal(out[0]) then [] else [out[0].value]) + Received(out[1..])
  }

  /** The first ending or error a consumer receives. */
  function FirstTerminal(out: seq<Emission>): Option<Emission> {
    if out == [] then None else if IsTerminal(out[0]) then Some(out[0]) else FirstTerminal(out[1..])
  }

  /** `events` with a terminal item after the first `k` of them. */
  function Around(events: seq<StreamEvent>, terminal: Emission, k: nat): seq<Emission>
    requires k <= |events|
  {
    Ok(events[..k]) + [terminal] + Ok(events[k..])
  }

  lemma {:induction false} OnlyEvents(out: seq<Emission>)
    requires Terminals(out) == 0
    ensures out == Ok(Received(out)) && FirstTerminal(out) == None
    decreases |out|
  {
    if out != [] {
      OnlyEvents(out[1..]);
      assert out == [out[0]] + out[1..];
      OkConcat([out[0].value], Received(out[1..]));
    }
  }

  /** A stream with one terminal item is its events with that item among them. */
  lemma {:induction false} SplitsAtTerminal(out: seq<Emission>) returns (k: nat)
    requires Terminals(out) == 1
    ensures k <= |Received(out)| && FirstTerminal(out).Some?
    ensures out == Around(Received(out), FirstTerminal(out).value, k)
    decreases |out|
  {
    var first, rest := out[0], out[1..];
    assert out == [first] + rest;
    if IsTerminal(first) {
      k := 0;
      OnlyEvents(rest);
      assert Received(out) == [] + Received(rest) == Received(rest);
      AroundStart(Received(rest), first);
    } else {
      var i := SplitsAtTerminal(rest);
      k := 1 + i;
      AroundLater([first.value], Received(rest), FirstTerminal(rest).value, i);
      assert Ok([first.value]) == [first];
    }
  }

  lemma AroundStart(events: seq<StreamEvent>, terminal: Emission)
    ensures Around(events, terminal, 0) == [terminal] + Ok(events)
  {
    assert events[..0] == [] && events[0..] == events;
  }

  lemma AroundLater(a: seq<StreamEvent>, b: seq<StreamEvent>, terminal: Emission, k: nat)
    requires k <= |b|
    ensures Around(a + b, terminal, |a| + k) == Ok(a) + Around(b, terminal, k)
  {
    assert (a + b)[..|a| + k] == a + b[..k] && (a + b)[|a| + k..] == b[k..];
    OkConcat(a, b[..k]);
    assert Ok(a) + Ok(b[..k]) + [terminal] + Ok(b[k..]) == Ok(a) + (Ok(b[..k]) + [terminal] + Ok(b[k..]));
  }

  lemma {:induction false} AfterOk(events: seq<StreamEvent>, rest: seq<Emission>)
    requires Done !in events
    ensures Received(Ok(events) + rest) == events + Received(rest)
    ensures FirstTerminal(Ok(events) + rest) == FirstTerminal(rest)
    decreases |events|
  {
    var out := Ok(events) + rest;
    if events == [] {
      assert out == rest && events + Received(rest) == Received(rest);
    } else {
      assert events[0] in events;
      assert out[0] == Success(events[0]) && out[1..] == Ok(events[1..]) + rest;
      AfterOk(events[1..], rest);
      assert [events[0]] + (events[1..] + Received(rest)) == events + Received(rest);
    }
  }

  /** How a drained stream ends: its first malformed payload, else its ending. */
  function Conclusion(d: Drained, tail: seq<Item>): Emission {
    if d.error.Some? then Failure(d.error.value) else Ending(d.done, tail)
  }

  /** `out` brings the events drained, and ends as they do. */
  ghost predicate Brings(out: seq<Emission>, d: Drained, tail: seq<Item>) {
    Received(out) == d.events && FirstTerminal(out) == Some(Conclusion(d, tail))
  }

  lemma BringsError(events: seq<StreamEvent>, d: Drained, tail: seq<Item>)
    requires Done !in events && d.error.Some? && d.events == events
    ensures Brings([Failure(d.error.value)] + Ok(events), d, tail)
  {
    var out := [Failure(d.error.value)] + Ok(events);
    assert out[1..] == Ok(events) + [];
    AfterOk(events, []);
    assert Received([]) == [] && events + [] == events && [] + events == events;
  }

  lemma BringsEnding(events: seq<StreamEvent>, ending: Emission, d: Drained, tail: seq<Item>)
    requires Done !in events && d.events == events && IsTerminal(ending) && ending == Conclusion(d, tail)
    ensures Brings(Ok(events) + [ending], d, tail)
  {
    AfterOk(events, [ending]);
    assert [ending][1..] == [] && events + [] == events;
    assert Received([ending]) == [] + Received([]);
  }

  lemma BringsMore(events: seq<StreamEvent>, rest: seq<Emission>, d: Drained, m: Drained, tail: seq<Item>)
    requires Done !in events && Brings(rest, m, tail) && d == After(events, m)
    ensures Brings(Ok(events) + rest, d, tail)
  {
    AfterOk(events, rest);
  }

  lemma BringsStep(decode: Decoder, lossy: Sse.Decoder, items: seq<Item>, later: seq<byte>, tail: seq<Item>,
                   parser: Sse.State, ids: CallIds)
    requires items != [] && items[0].Chunk?
    requires var fed := Sse.FeedAll(lossy, parser, items[0].bytes);
             var d := Drain(decode, fed.completed, ids);
             !d.done && d.error.None? ==>
               Brings(Output(decode, lossy, items[1..], fed.(completed := []), d.ids),
                      Drain(decode, Sse.FeedAll(lossy, fed.(completed := []), later).completed, d.ids), tail)
    ensures Brings(Output(decode, lossy, items, parser, ids),
                   Drain(decode, Sse.FeedAll(lossy, parser, items[0].bytes + later).completed, ids), tail)
  {
    var fed := Sse.FeedAll(lossy, parser, items[0].bytes);
    var d := Drain(decode, fed.completed, ids);
    var total := Drain(decode, Sse.FeedAll(lossy, parser, items[0].bytes + later).completed, ids);
    DrainInTwo(decode, lossy, parser, items[0].bytes, later, ids);
    OutputOfOne(decode, lossy, items, parser, ids);
    NeverDecodesDone(decode, fed.completed, ids);
    if d.error.Some? {
      BringsError(d.events, total, tail);
    } else if d.done {
      BringsEnding(d.events, Success(Done), total, tail);
    } else {
      BringsMore(d.events, Output(decode, lossy, items[1..], fed.(completed := []), d.ids), total,
                 Drain(decode, Sse.FeedAll(lossy, fed.(completed := []), later).completed, d.ids), tail);
    }
  }

  lemma {:induction false} OutputBrings(
    decode: Decoder, lossy: Sse.Decoder, chunks: seq<Item>, tail: seq<Item>, parser: Sse.State, ids: CallIds)
    requires parser.completed == []
    requires forall item <- chunks :: item.Chunk?
    requires tail != [] ==> tail[0].TransportError?
    ensures Brings(Output(decode, lossy, chunks + tail, parser, ids),
                   Drain(decode, Sse.FeedAll(lossy, parser, Bytes(chunks)).completed, ids), tail)
    decreases |chunks|
  {
    if chunks == [] {
      BringsNothing(decode, lossy, tail, parser, ids);
      assert chunks + tail == tail;
    } else {
      var rest, items := chunks[1..], chunks + tail;
      FirstChunk(chunks, tail);
      var fed := Sse.FeedAll(lossy, parser, items[0].bytes);
      OutputBrings(decode, lossy, rest, tail, fed.(completed := []), Drain(decode, fed.completed, ids).ids);
      BringsStep(decode, lossy, items, Bytes(rest), tail, parser, ids);
    }
  }

  lemma BringsNothing(decode: Decoder, lossy: Sse.Decoder, tail: seq<Item>, parser: Sse.State, ids: CallIds)
    requires parser.completed == [] && (tail != [] ==> tail[0].TransportError?)
    ensures Brings(Output(decode, lossy, tail, parser, ids),
                   Drain(decode, Sse.FeedAll(lossy, parser, []).completed, ids), tail)
  {
    var d := Drain(decode, Sse.FeedAll(lossy, parser, []).completed, ids);
    assert d == Drained([], ids, [], false, None);
    BringsEnding([], Ending(false, tail), d, tail);
    assert Ok([]) + [Ending(false, tail)] == [Ending(false, tail)];
  }

  /** Where the terminal item stands: after the events of all chunks before the one
      with the malformed payload; with none, after all events. */
  function Place(decode: Decoder, lossy: Sse.Decoder, chunks: seq<Item>, parser: Sse.State, ids: CallIds): nat
    requires forall item <- chunks :: item.Chunk?
    decreases |chunks|
  {
    if chunks == [] then 0
    else
      var fed := Sse.FeedAll(lossy, parser, chunks[0].bytes);
      var d := Drain(decode, fed.completed, ids);
      if d.error.Some? then 0
      else |d.events| + (if d.done then 0 else Place(decode, lossy, chunks[1..], fed.(completed := []), d.ids))
  }

  ghost predicate TerminalAt(out: seq<Emission>, k: nat) {
    k < |out| && IsTerminal(out[k])
  }

  lemma TerminalLater(events: seq<StreamEvent>, rest: seq<Emission>, k: nat)
    requires TerminalAt(rest, k)
    ensures TerminalAt(Ok(events) + rest, |events| + k)
  {}

  lemma TerminalOfOne(decode: Decoder, lossy: Sse.Decoder, items: seq<Item>, parser: Sse.State, ids: CallIds, k: nat)
    requires items != [] && items[0].Chunk?
    requires var fed := Sse.FeedAll(lossy, parser, items[0].bytes);
             var d := Drain(decode, fed.completed, ids);
             !d.done && d.error.None? ==> TerminalAt(Output(decode, lossy, items[1..], fed.(completed := []), d.ids), k)
    ensures var d := Drain(decode, Sse.FeedAll(lossy, parser, items[0].bytes).completed, ids);
            TerminalAt(Output(decode, lossy, items, parser, ids),
                       if d.error.Some? then 0 else |d.events| + (if d.done then 0 else k))
  {
    var fed := Sse.FeedAll(lossy, parser, items[0].bytes);
    var d := Drain(decode, fed.completed, ids);
    OutputOfOne(decode, lossy, items, parser, ids);
    if d.error.Some? {
      assert TerminalAt([Failure(d.error.value)] + Ok(d.events), 0);
    } else if d.done {
      TerminalLater(d.events, [Success(Done)], 0);
    } else {
      TerminalLater(d.events, Output(decode, lossy, items[1..], fed.(completed := []), d.ids), k);
    }
  }

  lemma FirstChunk(chunks: seq<Item>, tail: seq<Item>)
    requires chunks != [] && forall item <- chunks :: item.Chunk?
    ensures (chunks + tail)[0] == chunks[0] && (chunks + tail)[1..] == chunks[1..] + tail
    ensures chunks[0].Chunk? && forall item <- chunks[1..] :: item.Chunk?
  {
    assert chunks[0] in chunks && forall item <- chunks[1..] :: item in chunks;
  }

  lemma PlaceOfFirst(decode: Decoder, lossy: Sse.Decoder, chunks: seq<Item>, parser: Sse.State, ids: CallIds)
    requires chunks != [] && forall item <- chunks :: item.Chunk?
    ensures var fed := Sse.FeedAll(lossy, parser, chunks[0].bytes);
            var d := Drain(decode, fed.completed, ids);
            Place(decode, lossy, chunks, parser, ids)
            == if d.error.Some? then 0
               else |d.events| + (if d.done then 0 else Place(decode, lossy, chunks[1..], fed.(completed := []), d.ids))
  {}

  lemma {:induction false} OutputTerminalAt(
    decode: Decoder, lossy: Sse.Decoder, chunks: seq<Item>, tail: seq<Item>, parser: Sse.State, ids: CallIds)
    requires forall item <- chunks :: item.Chunk?
    requires tail != [] ==> tail[0].TransportError?
    ensures TerminalAt(Output(decode, lossy, chunks + tail, parser, ids), Place(decode, lossy, chunks, parser, ids))
    decreases |chunks|, 1
  {
    if chunks == [] {
      assert chunks + tail == tail;
    } else {
      FirstChunk(chunks, tail);
      PlaceOfFirst(decode, lossy, chunks, parser, ids);
      TerminalStep(decode, lossy, chunks, tail, parser, ids);
    }
  }

  lemma {:induction false} TerminalStep(
    decode: Decoder, lossy: Sse.Decoder, chunks: seq<Item>, tail: seq<Item>, parser: Sse.State, ids: CallIds)
    requires chunks != [] && forall item <- chunks :: item.Chunk?
    requires tail != [] ==> tail[0].TransportError?
    ensures var fed := Sse.FeedAll(lossy, parser, chunks[0].bytes);
            var d := Drain(decode, fed.completed, ids);
            var later := Place(decode, lossy, chunks[1..], fed.(completed := []), d.ids);
            TerminalAt(Output(decode, lossy, chunks + tail, parser, ids),
                       if d.error.Some? then 0 else |d.events| + (if d.done then 0 else later))
    decreases |chunks|, 0
  {
    var rest, items := chunks[1..], chunks + tail;
    FirstChunk(chunks, tail);
    var fed := Sse.FeedAll(lossy, parser, items[0].bytes);
    var cleared, next := fed.(completed := []), Drain(decode, fed.completed, ids).ids;
    OutputTerminalAt(decode, lossy, rest, tail, cleared, next);
    TerminalOfOne(decode, lossy, items, parser, ids, Place(decode, lossy, rest, cleared, next));
  }

  /** In a stream around one terminal item nothing else is terminal. */
  lemma OthersAreEvents(events: seq<StreamEvent>, terminal: Emission, k: nat, j: nat)
    requires Done !in events && k <= |events| && j < |Around(events, terminal, k)| && j != k
    ensures !IsTerminal(Around(events, terminal, k)[j])
  {
    var out := Around(events, terminal, k);
    var e := if j < k then events[j] else events[j - 1];
    assert out[j] == Success(e) && e in events;
  }

  /** Every stream, malformed payloads and transport errors included: the consumer
      receives, in order, exactly the events of the payloads up to `[DONE]`, the
      first malformed payload or the end of the bytes, and one terminal item that
      those decide. The chunking decides only where that item stands. */
  lemma {:induction false} EveryStream(decode: Decoder, lossy: Sse.Decoder, chunks: seq<Item>, tail: seq<Item>)
    requires forall item <- chunks :: item.Chunk?
    requires tail != [] ==> tail[0].TransportError?
    ensures var d := Drain(decode, Sse.Reference(lossy, Bytes(chunks)), map[]);
            var k := Place(decode, lossy, chunks, Sse.FRESH, map[]);
            && k <= |d.events|
            && RunAll(decode, lossy, Start(chunks + tail)) == Around(d.events, Conclusion(d, tail), k)
            && Received(RunAll(decode, lossy, Start(chunks + tail))) == d.events
  {
    var d := Drain(decode, Sse.Reference(lossy, Bytes(chunks)), map[]);
    FedIsReference(lossy, Bytes(chunks));
    OutputBrings(decode, lossy, chunks, tail, Sse.FRESH, map[]);
    RunFromStart(decode, lossy, chunks + tail);
    OutputEndsOnce(decode, lossy, chunks + tail, Sse.FRESH, map[]);
    var k := SplitsAtTerminal(Output(decode, lossy, chunks + tail, Sse.FRESH, map[]));
    OutputTerminalAt(decode, lossy, chunks, tail, Sse.FRESH, map[]);
    NeverDecodesDone(decode, Sse.Reference(lossy, Bytes(chunks)), map[]);
    var place := Place(decode, lossy, chunks, Sse.FRESH, map[]);
    if place != k {
      OthersAreEvents(d.events, Conclusion(d, tail), k, place);
    }
  }

  // ------------------------------------------------------------------
  // Tool-call fragments: what a slot sends is what its call id receives.
  // ------------------------------------------------------------------

  /** The concatenated argument fragments that were sent for a slot. */
  function SlotArguments(fragments: seq<ToolCallChunk>, slot: nat): string {
    if fragments == [] then ""
    else (if fragments[0].index == slot then FragmentArguments(fragments[0]) else "") + SlotArguments(fragments[1..], slot)
  }

  /** The concatenated argument deltas a consumer sees under a call id. */
  function ArgumentsUnder(events: seq<StreamEvent>, id: string): string {
    if events == [] then ""
    else (if events[0].ToolCallDelta? && events[0].callId == id then events[0].argumentsDelta else "")
         + ArgumentsUnder(events[1..], id)
  }

  /** The id each fragment resolves to, in order. */
  function Resolved(ids: CallIds, fragments: seq<ToolCallChunk>): (r: seq<string>)
    ensures |r| == |fragments|
    decreases |fragments|
  {
    if fragments == [] then []
    else
      var id := ResolveId(ids, fragments[0]);
      [id] + Resolved(ids[fragments[0].index := id], fragments[1..])
  }

  /** The slot's fragments, and no others, resolve to `id`. */
  ghost predicate OwnId(ids: CallIds, fragments: seq<ToolCallChunk>, slot: nat, id: string) {
    AllUnder(ids, fragments, slot, id)
    && forall f <- fragments :: f.index != slot ==> NoneUnder(ids, fragments, f.index, id)
  }

  ghost predicate AllUnder(ids: CallIds, fragments: seq<ToolCallChunk>, slot: nat, id: string) {
    forall i :: 0 <= i < |fragments| && fragments[i].index == slot ==> Resolved(ids, fragments)[i] == id
  }

  ghost predicate NoneUnder(ids: CallIds, fragments: seq<ToolCallChunk>, slot: nat, id: string) {
    forall i :: 0 <= i < |fragments| && fragments[i].index == slot ==> Resolved(ids, fragments)[i] != id
  }

  lemma {:induction false} ArgumentsConcat(a: seq<StreamEvent>, b: seq<StreamEvent>, id: string)
    ensures ArgumentsUnder(a + b, id) == ArgumentsUnder(a, id) + ArgumentsUnder(b, id)
    decreases |a|
  {
    if a == [] {
      assert a + b == b;
    } else {
      assert (a + b)[1..] == a[1..] + b;
      ArgumentsConcat(a[1..], b, id);
    }
  }

  lemma FragmentFirst(ids: CallIds, fragments: seq<ToolCallChunk>, id: string)
    requires fragments != []
    ensures var next := ids[fragments[0].index := ResolveId(ids, fragments[0])];
            var own := FragmentEvent(ids, fragments[0]) != [] && ResolveId(ids, fragments[0]) == id;
            ArgumentsUnder(FragmentEvents(ids, fragments).1, id)
            == (if own then FragmentArguments(fragments[0]) else "")
               + ArgumentsUnder(FragmentEvents(next, fragments[1..]).1, id)
  {
    var event := FragmentEvent(ids, fragments[0]);
    var next := ids[fragments[0].index := ResolveId(ids, fragments[0])];
    ArgumentsConcat(event, FragmentEvents(next, fragments[1..]).1, id);
    if event != [] {
      assert event[1..] == [];
    }
  }

  /** The argument text of the fragments that resolve to an id. */
  function TextUnder(ids: CallIds, fragments: seq<ToolCallChunk>, id: string): string
    decreases |fragments|
  {
    if fragments == [] then ""
    else
      var own := ResolveId(ids, fragments[0]);
      (if own == id then FragmentArguments(fragments[0]) else "")
      + TextUnder(ids[fragments[0].index := own], fragments[1..], id)
  }

  /** Whatever the fragments, the consumer finds under an id the argument text of
      exactly those that resolve to it. */
  lemma {:induction false} DeltasAreTheText(ids: CallIds, fragments: seq<ToolCallChunk>, id: string)
    ensures ArgumentsUnder(FragmentEvents(ids, fragments).1, id) == TextUnder(ids, fragments, id)
    decreases |fragments|
  {
    if fragments != [] {
      FragmentFirst(ids, fragments, id);
      DeltasAreTheText(ids[fragments[0].index := ResolveId(ids, fragments[0])], fragments[1..], id);
    }
  }

  lemma {:induction false} SlotFragments(ids: CallIds, fragments: seq<ToolCallChunk>, slot: nat, id: string)
    requires forall i :: 0 <= i < |fragments| ==> (Resolved(ids, fragments)[i] == id <==> fragments[i].index == slot)
    ensures TextUnder(ids, fragments, id) == SlotArguments(fragments, slot)
    decreases |fragments|
  {
    if fragments != [] {
      var next := ids[fragments[0].index := ResolveId(ids, fragments[0])];
      var all, rest := Resolved(ids, fragments), Resolved(next, fragments[1..]);
      assert all[0] == ResolveId(ids, fragments[0]);
      forall i | 0 <= i < |fragments| - 1 ensures rest[i] == all[i + 1] && fragments[1..][i] == fragments[i + 1] {}
      SlotFragments(next, fragments[1..], slot, id);
    }
  }

  lemma OwnIdDecides(ids: CallIds, fragments: seq<ToolCallChunk>, slot: nat, id: string)
    ensures OwnId(ids, fragments, slot, id) <==>
            forall i :: 0 <= i < |fragments| ==> (Resolved(ids, fragments)[i] == id <==> fragments[i].index == slot)
  {
    if forall i :: 0 <= i < |fragments| ==> (Resolved(ids, fragments)[i] == id <==> fragments[i].index == slot) {
      assert OwnId(ids, fragments, slot, id);
    } else if OwnId(ids, fragments, slot, id) {
      forall i | 0 <= i < |fragments| ensures Resolved(ids, fragments)[i] == id <==> fragments[i].index == slot {
        assert fragments[i] in fragments;
      }
    }
  }

  // ------------------------------------------------------------------
  // When a slot keeps one id, and when it stays clear of another's.
  // ------------------------------------------------------------------

  /** The id a slot's first fragment resolves to, if it has one. */
  function FirstId(ids: CallIds, fragments: seq<ToolCallChunk>, slot: nat): Option<string> {
    if fragments == [] then None
    else if fragments[0].index == slot then Some(ResolveId(ids, fragments[0]))
    else FirstId(ids, fragments[1..], slot)
  }

  /** The ids a slot's fragments carry. */
  ghost predicate Carries(fragments: seq<ToolCallChunk>, slot: nat, id: string) {
    exists f <- fragments :: f.index == slot && f.id == Some(id)
  }

  ghost predicate CarriesAnother(fragments: seq<ToolCallChunk>, slot: nat, id: string) {
    exists f <- fragments :: f.index == slot && f.id.Some? && f.id != Some(id)
  }

  lemma ResolvedTail(ids: CallIds, fragments: seq<ToolCallChunk>, i: nat)
    requires 0 < i < |fragments|
    ensures Resolved(ids, fragments)[i]
         == Resolved(ids[fragments[0].index := ResolveId(ids, fragments[0])], fragments[1..])[i - 1]
    ensures fragments[i] == fragments[1..][i - 1]
  {}

  lemma AllUnderFirst(ids: CallIds, fragments: seq<ToolCallChunk>, slot: nat, id: string)
    requires fragments != []
    ensures AllUnder(ids, fragments, slot, id) <==>
            && (fragments[0].index == slot ==> ResolveId(ids, fragments[0]) == id)
            && AllUnder(ids[fragments[0].index := ResolveId(ids, fragments[0])], fragments[1..], slot, id)
  {
    var next, tail := ids[fragments[0].index := ResolveId(ids, fragments[0])], fragments[1..];
    var all, rest := Resolved(ids, fragments), Resolved(next, tail);
    assert all[0] == ResolveId(ids, fragments[0]);
    if AllUnder(ids, fragments, slot, id) {
      forall i | 0 <= i < |tail| && tail[i].index == slot ensures rest[i] == id {
        ResolvedTail(ids, fragments, i + 1);
      }
    } else if AllUnder(next, tail, slot, id) {
      var i :| 0 <= i < |fragments| && fragments[i].index == slot && all[i] != id;
      if i > 0 {
        ResolvedTail(ids, fragments, i);
      }
    }
  }

  lemma NoneUnderFirst(ids: CallIds, fragments: seq<ToolCallChunk>, slot: nat, id: string)
    requires fragments != []
    ensures NoneUnder(ids, fragments, slot, id) <==>
            && (fragments[0].index == slot ==> ResolveId(ids, fragments[0]) != id)
            && NoneUnder(ids[fragments[0].index := ResolveId(ids, fragments[0])], fragments[1..], slot, id)
  {
    var next, tail := ids[fragments[0].index := ResolveId(ids, fragments[0])], fragments[1..];
    var all, rest := Resolved(ids, fragments), Resolved(next, tail);
    assert all[0] == ResolveId(ids, fragments[0]);
    if NoneUnder(ids, fragments, slot, id) {
      forall i | 0 <= i < |tail| && tail[i].index == slot ensures rest[i] != id {
        ResolvedTail(ids, fragments, i + 1);
      }
    } else if NoneUnder(next, tail, slot, id) {
      var i :| 0 <= i < |fragments| && fragments[i].index == slot && all[i] == id;
      if i > 0 {
        ResolvedTail(ids, fragments, i);
      }
    }
  }

  lemma CarriesFirst(fragments: seq<ToolCallChunk>, slot: nat, id: string)
    requires fragments != []
    ensures var f := fragments[0];
            && (Carries(fragments, slot, id) <==>
                (f.index == slot && f.id == Some(id)) || Carries(fragments[1..], slot, id))
            && (CarriesAnother(fragments, slot, id) <==>
                (f.index == slot && f.id.Some? && f.id != Some(id)) || CarriesAnother(fragments[1..], slot, id))
  {
    assert fragments == [fragments[0]] + fragments[1..];
  }

  /** A slot with a known id stays under it exactly when no other id is sent, and
      one known under another id stays clear exactly when this one is not sent. */
  lemma {:induction false} KnownSlot(ids: CallIds, fragments: seq<ToolCallChunk>, slot: nat, id: string)
    requires slot in ids
    ensures ids[slot] == id ==> (AllUnder(ids, fragments, slot, id) <==> !CarriesAnother(fragments, slot, id))
    ensures ids[slot] != id ==> (NoneUnder(ids, fragments, slot, id) <==> !Carries(fragments, slot, id))
    decreases |fragments|
  {
    if fragments != [] {
      AllUnderFirst(ids, fragments, slot, id);
      NoneUnderFirst(ids, fragments, slot, id);
      CarriesFirst(fragments, slot, id);
      KnownSlot(ids[fragments[0].index := ResolveId(ids, fragments[0])], fragments[1..], slot, id);
    }
  }

  /** All of a slot's fragments resolve to `id` exactly when its first one does -
      by its own, the cached or the synthesised id - and none carries another. */
  lemma {:induction false} AllUnderExactlyWhen(ids: CallIds, fragments: seq<ToolCallChunk>, slot: nat, id: string)
    ensures AllUnder(ids, fragments, slot, id) <==>
            FirstId(ids, fragments, slot) in {None, Some(id)} && !CarriesAnother(fragments, slot, id)
    decreases |fragments|
  {
    if fragments != [] {
      var next := ids[fragments[0].index := ResolveId(ids, fragments[0])];
      AllUnderFirst(ids, fragments, slot, id);
      CarriesFirst(fragments, slot, id);
      if fragments[0].index == slot {
        KnownSlot(next, fragments[1..], slot, id);
      } else {
        SameFirstId(ids, next, fragments[1..], slot);
        AllUnderExactlyWhen(next, fragments[1..], slot, id);
      }
    }
  }

  /** None of a slot's fragments resolves to `id` exactly when its first one does
      not and none carries it. */
  lemma {:induction false} NoneUnderExactlyWhen(ids: CallIds, fragments: seq<ToolCallChunk>, slot: nat, id: string)
    ensures NoneUnder(ids, fragments, slot, id) <==>
            FirstId(ids, fragments, slot) != Some(id) && !Carries(fragments, slot, id)
    decreases |fragments|
  {
    if fragments != [] {
      var next := ids[fragments[0].index := ResolveId(ids, fragments[0])];
      NoneUnderFirst(ids, fragments, slot, id);
      CarriesFirst(fragments, slot, id);
      if fragments[0].index == slot {
        KnownSlot(next, fragments[1..], slot, id);
      } else {
        SameFirstId(ids, next, fragments[1..], slot);
        NoneUnderExactlyWhen(next, fragments[1..], slot, id);
      }
    }
  }

  lemma {:induction false} SameFirstId(ids: CallIds, other: CallIds, fragments: seq<ToolCallChunk>, slot: nat)
    requires slot in ids <==> slot in other
    requires slot in ids ==> ids[slot] == other[slot]
    ensures FirstId(ids, fragments, slot) == FirstId(other, fragments, slot)
    decreases |fragments|
  {
    if fragments != [] && fragments[0].index != slot {
      SameFirstId(ids, other, fragments[1..], slot);
    }
  }

  /** All tool-call fragments of a run of choices, in order. */
  function ChoiceFragments(choices: seq<ChunkChoice>): seq<ToolCallChunk> {
    if choices == [] then [] else choices[0].toolCalls + ChoiceFragments(choices[1..])
  }

  /** All fragments of the payloads decoded before `[DONE]` or an error. */
  function QueueFragments(decode: Decoder, queue: seq<string>): seq<ToolCallChunk> {
    if queue == [] || IsDone(queue[0]) || decode(queue[0]).Failure? then []
    else ChoiceFragments(decode(queue[0]).value.choices) + QueueFragments(decode, queue[1..])
  }

  lemma {:induction false} FragmentsConcat(ids: CallIds, a: seq<ToolCallChunk>, b: seq<ToolCallChunk>)
    ensures var (next, events) := FragmentEvents(ids, a);
            FragmentEvents(ids, a + b) == (FragmentEvents(next, b).0, events + FragmentEvents(next, b).1)
    decreases |a|
  {
    if a == [] {
      assert a + b == b;
      assert [] + FragmentEvents(ids, b).1 == FragmentEvents(ids, b).1;
    } else {
      assert (a + b)[0] == a[0] && (a + b)[1..] == a[1..] + b;
      var next := ids[a[0].index := ResolveId(ids, a[0])];
      FragmentsConcat(next, a[1..], b);
      var (ids', events) := FragmentEvents(next, a[1..]);
      var first, more := FragmentEvent(ids, a[0]), FragmentEvents(ids', b).1;
      assert first + (events + more) == first + events + more;
    }
  }

  /** The tool-call deltas among a run of events. */
  function Calls(events: seq<StreamEvent>): seq<StreamEvent> {
    if events == [] then [] else (if events[0].ToolCallDelta? then [events[0]] else []) + Calls(events[1..])
  }

  lemma {:induction false} CallsConcat(a: seq<StreamEvent>, b: seq<StreamEvent>)
    ensures Calls(a + b) == Calls(a) + Calls(b)
    decreases |a|
  {
    if a == [] {
      assert a + b == b;
    } else {
      assert (a + b)[1..] == a[1..] + b;
      CallsConcat(a[1..], b);
      Associative(if a[0].ToolCallDelta? then [a[0]] else [], Calls(a[1..]), Calls(b));
    }
  }

  lemma {:induction false} OnlyCalls(events: seq<StreamEvent>)
    requires forall e <- events :: e.ToolCallDelta?
    ensures Calls(events) == events
    decreases |events|
  {
    if events != [] {
      assert events[0] in events && forall e <- events[1..] :: e in events;
      OnlyCalls(events[1..]);
    }
  }

  lemma {:induction false} ArgumentsOfCalls(events: seq<StreamEvent>, id: string)
    ensures ArgumentsUnder(Calls(events), id) == ArgumentsUnder(events, id)
    decreases |events|
  {
    if events != [] {
      ArgumentsOfCalls(events[1..], id);
      if events[0].ToolCallDelta? {
        assert ([events[0]] + Calls(events[1..]))[1..] == Calls(events[1..]);
      } else {
        assert [] + Calls(events[1..]) == Calls(events[1..]);
      }
    }
  }

  lemma {:induction false} FragmentsAreCalls(ids: CallIds, fragments: seq<ToolCallChunk>)
    ensures forall e <- FragmentEvents(ids, fragments).1 :: e.ToolCallDelta?
    decreases |fragments|
  {
    if fragments != [] {
      FragmentsAreCalls(ids[fragments[0].index := ResolveId(ids, fragments[0])], fragments[1..]);
    }
  }

  lemma {:induction false} CallsOfParts(text: seq<StreamEvent>, deltas: seq<StreamEvent>, more: seq<StreamEvent>)
    requires |text| <= 1 && (forall e <- text :: !e.ToolCallDelta?) && forall e <- deltas :: e.ToolCallDelta?
    ensures Calls(text + deltas + more) == deltas + Calls(more)
  {
    CallsConcat(text + deltas, more);
    CallsConcat(text, deltas);
    OnlyCalls(deltas);
    assert Calls(text) == [] && [] + deltas == deltas by {
      if text != [] {
        assert text[0] in text && text[1..] == [];
      }
    }
  }

  lemma {:induction false} ChoicesAreFragments(ids: CallIds, choices: seq<ChunkChoice>)
    ensures ChoiceEvents(ids, choices).0 == FragmentEvents(ids, ChoiceFragments(choices)).0
    ensures Calls(ChoiceEvents(ids, choices).1) == FragmentEvents(ids, ChoiceFragments(choices)).1
    decreases |choices|
  {
    if choices != [] {
      var (next, deltas) := FragmentEvents(ids, choices[0].toolCalls);
      ChoicesAreFragments(next, choices[1..]);
      FragmentsAreCalls(ids, choices[0].toolCalls);
      CallsOfParts(TextEvents(choices[0]), deltas, ChoiceEvents(next, choices[1..]).1);
      FragmentsConcat(ids, choices[0].toolCalls, ChoiceFragments(choices[1..]));
    }
  }

  lemma ChunkIsFragments(ids: CallIds, chunk: ChatStreamChunk)
    ensures ChunkEvents(ids, chunk).0 == FragmentEvents(ids, ChoiceFragments(chunk.choices)).0
    ensures Calls(ChunkEvents(ids, chunk).1) == FragmentEvents(ids, ChoiceFragments(chunk.choices)).1
  {
    var usage := UsageEvents(chunk.usage);
    ChoicesAreFragments(ids, chunk.choices);
    CallsConcat(ChoiceEvents(ids, chunk.choices).1, usage);
    assert Calls(usage) == [] by {
      if usage != [] {
        assert usage[1..] == [];
      }
    }
  }

  /** The tool-call deltas drained are those of the queue's fragments. */
  lemma {:induction false} QueueIsFragments(decode: Decoder, queue: seq<string>, ids: CallIds)
    ensures Calls(Drain(decode, queue, ids).events) == FragmentEvents(ids, QueueFragments(decode, queue)).1
    decreases |queue|
  {
    if queue != [] && !IsDone(queue[0]) && decode(queue[0]).Success? {
      var chunk := decode(queue[0]).value;
      var (next, events) := ChunkEvents(ids, chunk);
      ChunkIsFragments(ids, chunk);
      QueueIsFragments(decode, queue[1..], next);
      CallsConcat(events, Drain(decode, queue[1..], next).events);
      FragmentsConcat(ids, ChoiceFragments(chunk.choices), QueueFragments(decode, queue[1..]));
    }
  }

  lemma {:induction false} DrainedArguments(decode: Decoder, queue: seq<string>, id: string)
    ensures ArgumentsUnder(Drain(decode, queue, map[]).events, id)
         == TextUnder(map[], QueueFragments(decode, queue), id)
  {
    ArgumentsOfCalls(Drain(decode, queue, map[]).events, id);
    QueueIsFragments(decode, queue, map[]);
    DeltasAreTheText(map[], QueueFragments(decode, queue), id);
  }

  /** For every id and every stream, malformed ones included, however the bytes are
      chunked: the deltas the consumer receives under the id concatenate to the
      argument text of the fragments that resolve to it. */
  lemma {:induction false} TextArrivesInEveryChunking(
    decode: Decoder, lossy: Sse.Decoder, chunks: seq<Item>, tail: seq<Item>, id: string)
    requires forall item <- chunks :: item.Chunk?
    requires tail != [] ==> tail[0].TransportError?
    ensures ArgumentsUnder(Received(RunAll(decode, lossy, Start(chunks + tail))), id)
         == TextUnder(map[], QueueFragments(decode, Sse.Reference(lossy, Bytes(chunks))), id)
  {
    EveryStream(decode, lossy, chunks, tail);
    DrainedArguments(decode, Sse.Reference(lossy, Bytes(chunks)), id);
  }

  /** When exactly a slot's fragments resolve to an id, concatenating the deltas
      queued under that id gives exactly the argument text sent for the slot. */
  lemma {:induction false} SlotArrivesUnderItsId(decode: Decoder, queue: seq<string>, slot: nat, id: string)
    requires OwnId(map[], QueueFragments(decode, queue), slot, id)
    ensures ArgumentsUnder(Drain(decode, queue, map[]).events, id)
         == SlotArguments(QueueFragments(decode, queue), slot)
  {
    DrainedArguments(decode, queue, id);
    OwnIdDecides(map[], QueueFragments(decode, queue), slot, id);
    SlotFragments(map[], QueueFragments(decode, queue), slot, id);
  }

  /** So it is for the consumer of every stream, however the bytes are chunked. */
  lemma {:induction false} SlotArrivesInEveryChunking(
    decode: Decoder, lossy: Sse.Decoder, chunks: seq<Item>, tail: seq<Item>, slot: nat, id: string)
    requires forall item <- chunks :: item.Chunk?
    requires tail != [] ==> tail[0].TransportError?
    requires OwnId(map[], QueueFragments(decode, Sse.Reference(lossy, Bytes(chunks))), slot, id)
    ensures ArgumentsUnder(Received(RunAll(decode, lossy, Start(chunks + tail))), id)
         == SlotArguments(QueueFragments(decode, Sse.Reference(lossy, Bytes(chunks))), slot)
  {
    EveryStream(decode, lossy, chunks, tail);
    SlotArrivesUnderItsId(decode, Sse.Reference(lossy, Bytes(chunks)), slot, id);
  }

  /** The exact condition, on the fragments alone: the slot's first fragment resolves
      to the id and none of its others carries a different one; no other slot's
      first fragment resolves to it and none of theirs carries it. */
  lemma {:induction false} OwnIdExactlyWhen(ids: CallIds, fragments: seq<ToolCallChunk>, slot: nat, id: string)
    ensures OwnId(ids, fragments, slot, id) <==>
            && FirstId(ids, fragments, slot) in {None, Some(id)} && !CarriesAnother(fragments, slot, id)
            && forall f <- fragments :: f.index != slot ==>
                 FirstId(ids, fragments, f.index) != Some(id) && !Carries(fragments, f.index, id)
  {
    AllUnderExactlyWhen(ids, fragments, slot, id);
    forall f <- fragments
      ensures NoneUnder(ids, fragments, f.index, id) <==>
              FirstId(ids, fragments, f.index) != Some(id) && !Carries(fragments, f.index, id)
    {
      NoneUnderExactlyWhen(ids, fragments, f.index, id);
    }
  }

  /** Once a stream sends no id for a slot, all its fragments are under one
      synthesised id, the same handle throughout. */
  lemma {:induction false} SilentSlotIsSynthesised(fragments: seq<ToolCallChunk>, slot: nat)
    requires forall f <- fragments :: f.index == slot ==> f.id.None?
    ensures AllUnder(map[], fragments, slot, "call_" + Decimal(slot))
  {
    AllUnderExactlyWhen(map[], fragments, slot, SyntheticId(slot));
    SilentFirstId(fragments, slot);
  }

  lemma {:induction false} SilentFirstId(fragments: seq<ToolCallChunk>, slot: nat)
    requires forall f <- fragments :: f.index == slot ==> f.id.None?
    ensures FirstId(map[], fragments, slot) in {None, Some(SyntheticId(slot))}
    decreases |fragments|
  {
    if fragments != [] {
      assert fragments[0] in fragments;
      SilentFirstId(fragments[1..], slot);
    }
  }
}
