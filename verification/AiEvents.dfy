/** The provider-neutral events and errors both stream adapters produce. */
module AiEvents {
  import opened Prelude

  datatype Usage = Usage(inputTokens: u32, outputTokens: u32, cachedInputTokens: u32)

  datatype StreamEvent =
    | TextDelta(text: string)
    | ToolCallDelta(callId: string, name: Option<string>, argumentsDelta: string)
    | UsageReport(usage: Usage)
    | Done

  datatype AiError = ProviderError(message: string) | Network(reason: string)

  type Emission = Result<StreamEvent, AiError>

  /** One pull of the byte stream; the end of the sequence is the end of the stream. */
  datatype Item = Chunk(bytes: seq<byte>) | TransportError(reason: string)

  function Ok(events: seq<StreamEvent>): (r: seq<Emission>)
    ensures |r| == |events| && forall i :: 0 <= i < |r| ==> r[i] == Success(events[i])
  {
    seq(|events|, i requires 0 <= i < |events| => Success(events[i]))
  }

  lemma OkConcat(a: seq<StreamEvent>, b: seq<StreamEvent>)
    ensures Ok(a + b) == Ok(a) + Ok(b)
  {}

  predicate IsTerminal(e: Emission) {
    e.Failure? || e.value.Done?
  }

  /** How many emissions end a stream: errors and `Done` markers. */
  function Terminals(out: seq<Emission>): nat {
    if out == [] then 0 else (if IsTerminal(out[0]) then 1 else 0) + Terminals(out[1..])
  }

  lemma {:induction false} TerminalsConcat(a: seq<Emission>, b: seq<Emission>)
    ensures Terminals(a + b) == Terminals(a) + Terminals(b)
    decreases |a|
  {
    if a == [] {
      assert a + b == b;
    } else {
      assert (a + b)[1..] == a[1..] + b;
      TerminalsConcat(a[1..], b);
    }
  }

  lemma {:induction false} NoTerminals(events: seq<StreamEvent>)
    requires Done !in events
    ensures Terminals(Ok(events)) == 0
    decreases |events|
  {
    if events != [] {
      assert Ok(events)[1..] == Ok(events[1..]);
      assert events[0] in events;
      NoTerminals(events[1..]);
    }
  }

  /** All bytes of a run of chunks. */
  function Bytes(items: seq<Item>): seq<byte>
    requires forall item <- items :: item.Chunk?
  {
    if items == [] then [] else items[0].bytes + Bytes(items[1..])
  }
}
