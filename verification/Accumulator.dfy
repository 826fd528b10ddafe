/**
 The streaming tool-call reassembler: a scanner over a growing buffer, a queue
 of at most one completed object, and the reference it is measured against,
 which consumes the text one character at a time and has no buffer at all.
 */
module Accumulator {
  import opened Prelude

  /** The scanner's `u32` depth saturates here. */
  const MAX_DEPTH: int := U32_MAX

  type Depth = d: int | 1 <= d <= MAX_DEPTH witness 1

  datatype ScanState =
    | Outside
    | InObject(depth: Depth)
    | InString(depth: Depth)
    | InStringEscape(depth: Depth)

  datatype ToolCall = ToolCall(id: string, name: string, arguments: string)

  datatype AccumulatorError = NotComplete | InvalidJson(reason: string)

  /** What the JSON library yields for a payload of the expected shape. */
  datatype Wire = Wire(id: string, name: string, arguments: string)

  /** The validation that follows the (abstract) JSON decoder. */
  function ParseToolCall(decode: string -> Result<Wire, string>, raw: string): Result<ToolCall, AccumulatorError> {
    match decode(raw)
    case Failure(reason) => Failure(InvalidJson(reason))
    case Success(wire) =>
      if wire.id == "" then Failure(InvalidJson("missing or empty `id` field"))
      else if wire.name == "" then Failure(InvalidJson("missing or empty `name` field"))
      else Success(ToolCall(wire.id, wire.name, wire.arguments))
  }

  function SaturatingSucc(d: Depth): Depth {
    if d < MAX_DEPTH then d + 1 else d
  }

  predicate Closes(state: ScanState, c: char) {
    state == InObject(1) && c == '}'
  }

  /** Where the scanner goes on `c`; a close of the outermost object leads Outside. */
  function NextState(state: ScanState, c: char): ScanState {
    match state
    case Outside => if c == '{' then InObject(1) else Outside
    case InObject(d) =>
      if c == '{' then InObject(SaturatingSucc(d))
      else if c == '}' then (if d == 1 then Outside else InObject(d - 1))
      else if c == '"' then InString(d)
      else state
    case InString(d) =>
      if c == '\\' then InStringEscape(d)
      else if c == '"' then InObject(d)
      else state
    case InStringEscape(d) => InString(d)
  }

  // ------------------------------------------------------------------
  // The reference: objects extracted from the text seen so far.
  // ------------------------------------------------------------------

  datatype Extraction = Extraction(objects: seq<string>, state: ScanState, partial: string)

  const NOTHING := Extraction([], Outside, "")

  function Consume(x: Extraction, c: char): Extraction {
    var next := NextState(x.state, c);
    if Closes(x.state, c) then Extraction(x.objects + [x.partial + [c]], next, "")
    else if next.Outside? then Extraction(x.objects, next, "")
    else Extraction(x.objects, next, x.partial + [c])
  }

  function ConsumeAll(x: Extraction, text: string): Extraction
    decreases |text|
  {
    if text == "" then x else ConsumeAll(Consume(x, text[0]), text[1..])
  }

  /** Every object completed by the text, in order. */
  function Extract(text: string): seq<string> {
    ConsumeAll(NOTHING, text).objects
  }

  lemma {:induction false} ConsumeConcat(x: Extraction, a: string, b: string)
    ensures ConsumeAll(x, a + b) == ConsumeAll(ConsumeAll(x, a), b)
    decreases |a|
  {
    if a == "" {
      assert a + b == b;
    } else {
      assert (a + b)[1..] == a[1..] + b;
      ConsumeConcat(Consume(x, a[0]), a[1..], b);
    }
  }

  /** Extraction only ever adds objects at the end. */
  lemma {:induction false} ObjectsGrow(x: Extraction, text: string)
    ensures x.objects <= ConsumeAll(x, text).objects
    decreases |text|
  {
    if text != "" {
      ObjectsGrow(Consume(x, text[0]), text[1..]);
    }
  }

  // ------------------------------------------------------------------
  // The fields of the accumulator, and its operations on them.
  // ------------------------------------------------------------------

  datatype Fields = Fields(
    buffer: string,
    scanPos: nat,
    state: ScanState,
    objectStart: Option<nat>,
    finished: Option<string>)

  const FRESH := Fields("", 0, Outside, None, None)

  ghost predicate WellFormed(f: Fields) {
    && f.scanPos <= |f.buffer|
    && (f.objectStart.Some? <==> !f.state.Outside?)
    && (f.objectStart.Some? ==> f.objectStart.value < f.scanPos)
    && (f.finished.Some? ==> f.state.Outside?)
  }

  /** One iteration of the scanning loop. */
  function ScanChar(f: Fields): (g: Fields)
    requires WellFormed(f) && f.scanPos < |f.buffer|
    ensures f.finished.None? ==> WellFormed(g)
  {
    var c := f.buffer[f.scanPos];
    var next := NextState(f.state, c);
    if Closes(f.state, c) then
      Fields(f.buffer, f.scanPos + 1, next, None, Some(f.buffer[f.objectStart.value..f.scanPos + 1]))
    else
      Fields(f.buffer, f.scanPos + 1, next,
             if f.state.Outside? && c == '{' then Some(f.scanPos) else f.objectStart, f.finished)
  }

  /** Scan until an object is queued or the buffer is used up. */
  function Scan(f: Fields): (g: Fields)
    requires WellFormed(f)
    ensures WellFormed(g) && g.buffer == f.buffer
    ensures g.finished.Some? || g.scanPos == |g.buffer|
    decreases |f.buffer| - f.scanPos
  {
    if f.finished.Some? || f.scanPos == |f.buffer| then f else Scan(ScanChar(f))
  }

  function Appended(f: Fields, fragment: string): (g: Fields)
    requires WellFormed(f)
    ensures WellFormed(g)
  {
    Scan(f.(buffer := f.buffer + fragment))
  }

  /** The state right after the queued object is removed and before any rescan. */
  function Compacted(f: Fields): (g: Fields)
    requires WellFormed(f) && f.finished.Some?
    ensures WellFormed(g)
  {
    f.(finished := None, buffer := f.buffer[f.scanPos..], scanPos := 0)
  }

  function Taken(decode: string -> Result<Wire, string>, f: Fields): (r: (Fields, Result<ToolCall, AccumulatorError>))
    requires WellFormed(f)
    ensures WellFormed(r.0)
  {
    if f.finished.None? then (f, Failure(NotComplete)) else
    var parsed := ParseToolCall(decode, f.finished.value);
    (if parsed.Success? then Scan(Compacted(f)) else Compacted(f), parsed)
  }

  class ToolCallAccumulator {
    var buffer: string
    var scanPos: nat
    var state: ScanState
    var objectStart: Option<nat>
    var finished: Option<string>

    ghost function View(): Fields
      reads this
    {
      Fields(buffer, scanPos, state, objectStart, finished)
    }

    ghost predicate Valid()
      reads this
    {
      WellFormed(View())
    }

    constructor ()
      ensures Valid() && View() == FRESH
    {
      buffer, scanPos, state, objectStart, finished := "", 0, Outside, None, None;
    }

    method Append(fragment: string)
      requires Valid()
      modifies this
      ensures Valid() && View() == Appended(old(View()), fragment)
    {
      buffer := buffer + fragment;
      Advance();
    }

    method IsComplete() returns (complete: bool)
      ensures complete == finished.Some?
    {
      complete := finished.Some?;
    }

    method TakeFinished(decode: string -> Result<Wire, string>) returns (r: Result<ToolCall, AccumulatorError>)
      requires Valid()
      modifies this
      ensures Valid() && (View(), r) == Taken(decode, old(View()))
    {
      if finished.None? {
        return Failure(NotComplete);
      }
      var raw := finished.value;
      finished := None;
      buffer := buffer[scanPos..];
      scanPos := 0;
      r := ParseToolCall(decode, raw);
      if r.Failure? {
        return;
      }
      Advance();
    }

    method Advance()
      requires Valid()
      modifies this
      ensures Valid() && View() == Scan(old(View()))
    {
      while finished.None? && scanPos < |buffer|
        invariant Valid()
        invariant Scan(View()) == Scan(old(View()))
        decreases |buffer| - scanPos
      {
        assert Scan(View()) == Scan(ScanChar(View()));
        ScanNext();
      }
    }

    /** The loop body: the transition of one character. */
    method ScanNext()
      requires Valid() && finished.None? && scanPos < |buffer|
      modifies this
      ensures Valid() && View() == ScanChar(old(View()))
    {
      var c := buffer[scanPos];
      scanPos := scanPos + 1;
      match state {
        case Outside =>
          if c == '{' {
            objectStart := Some(scanPos - 1);
            state := InObject(1);
          }
        case InObject(depth) =>
          if c == '{' {
            state := InObject(SaturatingSucc(depth));
          } else if c == '}' {
            if depth == 1 {
              finished := Some(buffer[objectStart.value..scanPos]);
              objectStart := None;
              state := Outside;
            } else {
              state := InObject(depth - 1);
            }
          } else if c == '"' {
            state := InString(depth);
          }
        case InString(depth) =>
          if c == '\\' {
            state := InStringEscape(depth);
          } else if c == '"' {
            state := InObject(depth);
          }
        case InStringEscape(depth) =>
          state := InString(depth);
      }
    }
  }

  // ------------------------------------------------------------------
  // `append` is additive.
  // ------------------------------------------------------------------

  lemma {:induction false} ScanThenExtend(f: Fields, more: string)
    requires WellFormed(f)
    ensures Appended(Scan(f), more) == Appended(f, more)
    decreases |f.buffer| - f.scanPos
  {
    if f.finished.None? && f.scanPos < |f.buffer| {
      var g := ScanChar(f);
      ScanThenExtend(g, more);
      var extended := f.(buffer := f.buffer + more);
      assert extended.buffer[extended.scanPos] == f.buffer[f.scanPos];
      if Closes(f.state, f.buffer[f.scanPos]) {
        assert extended.buffer[f.objectStart.value..f.scanPos + 1] == f.buffer[f.objectStart.value..f.scanPos + 1];
      }
      assert ScanChar(extended) == g.(buffer := g.buffer + more);
    }
  }

  /** Two appends leave every field as one append of the joined text does. */
  lemma {:induction false} AppendIsAdditive(f: Fields, a: string, b: string)
    requires WellFormed(f)
    ensures Appended(Appended(f, a), b) == Appended(f, a + b)
  {
    var g := f.(buffer := f.buffer + a);
    ScanThenExtend(g, b);
    assert g.buffer + b == f.buffer + (a + b);
  }

  // ------------------------------------------------------------------
  // Any schedule of appends and takes.
  // ------------------------------------------------------------------

  datatype Op = Append(fragment: string) | Take

  /** `taken` records the raw text behind every take that was not NotComplete. */
  datatype Session = Session(
    fields: Fields,
    taken: seq<string>,
    outcomes: seq<Result<ToolCall, AccumulatorError>>)

  function Step(decode: string -> Result<Wire, string>, s: Session, op: Op): (t: Session)
    requires WellFormed(s.fields)
    ensures WellFormed(t.fields)
  {
    match op
    case Append(fragment) => s.(fields := Appended(s.fields, fragment))
    case Take =>
      var (fields, outcome) := Taken(decode, s.fields);
      Session(fields,
              if s.fields.finished.Some? then s.taken + [s.fields.finished.value] else s.taken,
              s.outcomes + [outcome])
  }

  function Run(decode: string -> Result<Wire, string>, ops: seq<Op>): (s: Session)
    ensures WellFormed(s.fields)
  {
    if ops == [] then Session(FRESH, [], [])
    else Step(decode, Run(decode, ops[..|ops| - 1]), ops[|ops| - 1])
  }

  /** All the text a schedule has appended. */
  function Input(ops: seq<Op>): string {
    if ops == [] then ""
    else Input(ops[..|ops| - 1]) + (if ops[|ops| - 1].Append? then ops[|ops| - 1].fragment else "")
  }

  function Queued(f: Fields): seq<string> {
    if f.finished.Some? then [f.finished.value] else []
  }

  /** The reference state that the scanned part of the buffer stands for. */
  ghost function Scanned(f: Fields, taken: seq<string>): Extraction
    requires WellFormed(f)
  {
    Extraction(taken + Queued(f), f.state,
               if f.objectStart.Some? then f.buffer[f.objectStart.value..f.scanPos] else "")
  }

  /** The reference state once the unscanned rest is consumed as well. */
  ghost function Eventually(f: Fields, taken: seq<string>): Extraction
    requires WellFormed(f)
  {
    ConsumeAll(Scanned(f, taken), f.buffer[f.scanPos..])
  }

  lemma {:induction false} ScanPreserves(f: Fields, taken: seq<string>)
    requires WellFormed(f)
    ensures Eventually(Scan(f), taken) == Eventually(f, taken)
    decreases |f.buffer| - f.scanPos
  {
    if f.finished.None? && f.scanPos < |f.buffer| {
      var g := ScanChar(f);
      var rest := f.buffer[f.scanPos..];
      assert rest[1..] == g.buffer[g.scanPos..];
      if f.objectStart.Some? {
        var start := f.objectStart.value;
        assert f.buffer[start..f.scanPos] + [rest[0]] == f.buffer[start..f.scanPos + 1];
      }
      assert Consume(Scanned(f, taken), rest[0]) == Scanned(g, taken);
      ScanPreserves(g, taken);
    }
  }

  lemma ScannedIgnoresRest(f: Fields, taken: seq<string>, more: string)
    requires WellFormed(f)
    ensures Scanned(f.(buffer := f.buffer + more), taken) == Scanned(f, taken)
  {
    if f.objectStart.Some? {
      assert (f.buffer + more)[f.objectStart.value..f.scanPos] == f.buffer[f.objectStart.value..f.scanPos];
    }
  }

  lemma {:induction false} AppendExtends(f: Fields, taken: seq<string>, fragment: string)
    requires WellFormed(f)
    ensures Eventually(Appended(f, fragment), taken) == ConsumeAll(Eventually(f, taken), fragment)
  {
    var g := f.(buffer := f.buffer + fragment);
    ScanPreserves(g, taken);
    ScannedIgnoresRest(f, taken, fragment);
    assert g.buffer[g.scanPos..] == f.buffer[f.scanPos..] + fragment;
    ConsumeConcat(Scanned(f, taken), f.buffer[f.scanPos..], fragment);
  }

  lemma {:induction false} TakePreserves(decode: string -> Result<Wire, string>, f: Fields, taken: seq<string>)
    requires WellFormed(f)
    ensures Eventually(Taken(decode, f).0, taken + Queued(f)) == Eventually(f, taken)
  {
    if f.finished.Some? {
      var g := Compacted(f);
      assert g.buffer[0..] == f.buffer[f.scanPos..];
      assert Scanned(g, taken + Queued(f)) == Scanned(f, taken);
      ScanPreserves(g, taken + Queued(f));
    } else {
      assert taken + Queued(f) == taken;
    }
  }

  /** Conservation: what was taken, what is queued and what is still to be
      scanned always make up the extraction of all the input. */
  lemma {:induction false} Conservation(decode: string -> Result<Wire, string>, ops: seq<Op>)
    ensures var s := Run(decode, ops);
            Eventually(s.fields, s.taken) == ConsumeAll(NOTHING, Input(ops))
    decreases |ops|
  {
    if ops != [] {
      var before, op := ops[..|ops| - 1], ops[|ops| - 1];
      Conservation(decode, before);
      var s := Run(decode, before);
      match op {
        case Append(fragment) =>
          AppendExtends(s.fields, s.taken, fragment);
          ConsumeConcat(NOTHING, Input(before), fragment);
        case Take =>
          TakePreserves(decode, s.fields, s.taken);
          assert Run(decode, ops).taken == s.taken + Queued(s.fields);
          assert Input(ops) == Input(before);
      }
    }
  }

  /** Whatever the schedule, the raws taken and queued are a prefix of the
      one-shot extraction, invalid ones included. */
  lemma {:induction false} TakenIsPrefix(decode: string -> Result<Wire, string>, ops: seq<Op>)
    ensures var s := Run(decode, ops);
            s.taken + Queued(s.fields) <= Extract(Input(ops))
  {
    var s := Run(decode, ops);
    Conservation(decode, ops);
    ObjectsGrow(Scanned(s.fields, s.taken), s.fields.buffer[s.fields.scanPos..]);
  }

  /** The outcomes of the takes that found something queued. */
  function Reported(outcomes: seq<Result<ToolCall, AccumulatorError>>): seq<Result<ToolCall, AccumulatorError>> {
    if outcomes == [] then []
    else
      var last := outcomes[|outcomes| - 1];
      Reported(outcomes[..|outcomes| - 1]) + (if last == Failure(NotComplete) then [] else [last])
  }

  /** The takes report, in order, exactly the validation of the raws taken. */
  lemma {:induction false} OutcomesMatchRaws(decode: string -> Result<Wire, string>, ops: seq<Op>)
    ensures var s := Run(decode, ops);
            Reported(s.outcomes) == seq(|s.taken|, i requires 0 <= i < |s.taken| => ParseToolCall(decode, s.taken[i]))
    decreases |ops|
  {
    if ops != [] {
      var before := Run(decode, ops[..|ops| - 1]);
      OutcomesMatchRaws(decode, ops[..|ops| - 1]);
      var s := Run(decode, ops);
      if ops[|ops| - 1].Take? {
        assert s.outcomes[..|s.outcomes| - 1] == before.outcomes;
      }
    }
  }

  /** A decoded payload of a tool call: it decodes, with an id and a name. */
  predicate IsCall(decode: string -> Result<Wire, string>, raw: string) {
    decode(raw).Success? && decode(raw).value.id != "" && decode(raw).value.name != ""
  }

  /** What a take answers: nothing queued is not complete; a queued payload is a call
      exactly when it decodes with a non-empty id and a non-empty name, and then the
      call's id, name and arguments are the payload's; else the reason says which
      of these failed first. */
  lemma {:induction false} TakeAnswers(decode: string -> Result<Wire, string>, f: Fields)
    requires WellFormed(f)
    ensures var r := Taken(decode, f).1;
            if f.finished.None? then r == Failure(NotComplete)
            else
              var raw := f.finished.value;
              && (r.Success? <==> IsCall(decode, raw))
              && (r.Success? ==>
                    && r.value.id == decode(raw).value.id
                    && r.value.name == decode(raw).value.name
                    && r.value.arguments == decode(raw).value.arguments)
              && (decode(raw).Failure? ==> r == Failure(InvalidJson(decode(raw).error)))
              && (decode(raw).Success? && decode(raw).value.id == "" ==>
                    r == Failure(InvalidJson("missing or empty `id` field")))
              && (decode(raw).Success? && decode(raw).value.id != "" && decode(raw).value.name == "" ==>
                    r == Failure(InvalidJson("missing or empty `name` field")))
  {
    if f.finished.Some? {
      assert Taken(decode, f).1 == ParseToolCall(decode, f.finished.value);
    }
  }

  ghost predicate AllParse(decode: string -> Result<Wire, string>, raws: seq<string>) {
    forall i :: 0 <= i < |raws| ==> ParseToolCall(decode, raws[i]).Success?
  }

  lemma {:induction false} InputGrows(ops: seq<Op>, op: Op)
    ensures Extract(Input(ops)) <= Extract(Input(ops + [op]))
  {
    assert (ops + [op])[..|ops|] == ops;
    var more := if op.Append? then op.fragment else "";
    ConsumeConcat(NOTHING, Input(ops), more);
    ObjectsGrow(ConsumeAll(NOTHING, Input(ops)), more);
  }

  /** As long as every payload parses, the scanner never leaves text behind. */
  lemma {:induction false} KeepsUp(decode: string -> Result<Wire, string>, ops: seq<Op>)
    requires AllParse(decode, Extract(Input(ops)))
    ensures var f := Run(decode, ops).fields;
            f.finished.Some? || f.scanPos == |f.buffer|
    decreases |ops|
  {
    if ops != [] {
      var before, op := ops[..|ops| - 1], ops[|ops| - 1];
      assert ops == before + [op];
      InputGrows(before, op);
      TakenIsPrefix(decode, before);
      assert AllParse(decode, Extract(Input(before)));
      KeepsUp(decode, before);
      var s := Run(decode, before);
      if s.fields.finished.Some? {
        assert (s.taken + Queued(s.fields))[|s.taken|] == s.fields.finished.value;
      }
    }
  }

  /** If every object of the input parses then, under every schedule, nothing is
      withheld: either a call is queued or all objects have been taken. */
  lemma {:induction false} NothingWithheld(decode: string -> Result<Wire, string>, ops: seq<Op>)
    requires AllParse(decode, Extract(Input(ops)))
    ensures var s := Run(decode, ops);
            s.fields.finished.Some? || s.taken == Extract(Input(ops))
  {
    KeepsUp(decode, ops);
    Conservation(decode, ops);
  }

  /** Enough further takes therefore hand out every object. */
  lemma {:induction false} TakesDrain(decode: string -> Result<Wire, string>, ops: seq<Op>, n: nat)
    requires AllParse(decode, Extract(Input(ops)))
    requires |Run(decode, ops).taken| + n >= |Extract(Input(ops))|
    ensures Run(decode, ops + seq(n, _ => Take)).taken == Extract(Input(ops))
    decreases n
  {
    TakenIsPrefix(decode, ops);
    if n == 0 {
      assert ops + seq(n, _ => Take) == ops;
    } else {
      var next := ops + [Take];
      assert next[..|ops|] == ops;
      assert Input(next) == Input(ops);
      assert next + seq(n - 1, _ => Take) == ops + seq(n, _ => Take);
      NothingWithheld(decode, ops);
      TakesDrain(decode, next, n - 1);
    }
  }

  /** After a take, a following complete object is queued exactly when the taken
      payload parsed: a parse error leaves the rest of the buffer unscanned. */
  lemma {:induction false} ResumesExactlyWhenParsed(decode: string -> Result<Wire, string>, f: Fields)
    requires WellFormed(f) && f.finished.Some?
    ensures Taken(decode, f).0.finished.Some?
       <==> ParseToolCall(decode, f.finished.value).Success? && Extract(f.buffer[f.scanPos..]) != []
  {
    var g := Compacted(f);
    assert g.buffer[0..] == g.buffer;
    assert Scanned(g, []) == NOTHING;
    ScanPreserves(g, []);
    var h := Scan(g);
    ObjectsGrow(Scanned(h, []), h.buffer[h.scanPos..]);
  }

  predicate CaughtUp(f: Fields) {
    f.finished.Some? || f.scanPos == |f.buffer|
  }

  /** Takes, each followed by an append of nothing. */
  function TakesWithNudges(n: nat): seq<Op> {
    if n == 0 then [] else [Take] + ([Append("")] + TakesWithNudges(n - 1))
  }

  lemma {:induction false} NudgedTake(decode: string -> Result<Wire, string>, ops: seq<Op>)
    requires CaughtUp(Run(decode, ops).fields)
    ensures var s, t := Run(decode, ops), Run(decode, ops + [Take] + [Append("")]);
            && CaughtUp(t.fields) && t.taken == s.taken + Queued(s.fields)
            && Input(ops + [Take] + [Append("")]) == Input(ops)
  {
    var taken := ops + [Take];
    var next := taken + [Append("")];
    assert taken[..|ops|] == ops && next[..|taken|] == taken;
    assert Run(decode, taken) == Step(decode, Run(decode, ops), Take);
    assert Run(decode, next) == Step(decode, Run(decode, taken), Append(""));
    assert Run(decode, ops).taken + [] == Run(decode, ops).taken;
    assert Input(taken) == Input(ops) + "" == Input(ops);
    assert Input(next) == Input(taken) + "";
  }

  /** How many objects of the input have not been taken yet. */
  function Untaken(decode: string -> Result<Wire, string>, ops: seq<Op>): int {
    |Extract(Input(ops))| - |Run(decode, ops).taken|
  }

  lemma {:induction false} NudgedTakeProgresses(decode: string -> Result<Wire, string>, ops: seq<Op>)
    requires CaughtUp(Run(decode, ops).fields)
    ensures Untaken(decode, ops) <= 0 ==> Run(decode, ops).taken == Extract(Input(ops))
    ensures Untaken(decode, ops) > 0 ==>
              Untaken(decode, ops + [Take] + [Append("")]) == Untaken(decode, ops) - 1
    ensures Untaken(decode, ops) <= 0 ==> Untaken(decode, ops + [Take] + [Append("")]) <= 0
  {
    TakenIsPrefix(decode, ops);
    NudgedTake(decode, ops);
    if Run(decode, ops).fields.finished.None? {
      Conservation(decode, ops);
    }
  }

  lemma NudgeFirst(ops: seq<Op>, n: nat)
    requires n > 0
    ensures ops + TakesWithNudges(n) == ops + [Take] + [Append("")] + TakesWithNudges(n - 1)
  {
    assert TakesWithNudges(n) == [Take] + ([Append("")] + TakesWithNudges(n - 1));
  }

  lemma {:induction false} NudgedTakesDrain(
    decode: string -> Result<Wire, string>, ops: seq<Op>, n: nat, all: seq<Op>, input: string)
    requires CaughtUp(Run(decode, ops).fields) && Untaken(decode, ops) <= n
    requires all == ops + TakesWithNudges(n) && input == Input(ops)
    ensures Run(decode, all).taken == Extract(input)
    decreases n
  {
    NudgedTakeProgresses(decode, ops);
    if n == 0 {
      assert all == ops;
    } else {
      NudgeFirst(ops, n);
      NudgedTake(decode, ops);
      NudgedTakesDrain(decode, ops + [Take] + [Append("")], n - 1, all, input);
    }
  }

  /** Whatever the payloads, parsing or not: an append of nothing after each take
      makes enough takes hand out the whole one-shot extraction, in order. */
  lemma {:induction false} NothingIsLost(decode: string -> Result<Wire, string>, ops: seq<Op>, n: nat)
    requires Untaken(decode, ops) <= n
    ensures Run(decode, ops + [Append("")] + TakesWithNudges(n)).taken == Extract(Input(ops))
  {
    var next := ops + [Append("")];
    assert next[..|ops|] == ops;
    assert Input(next) == Input(ops) + "" == Input(ops);
    NudgedTakesDrain(decode, next, n, next + TakesWithNudges(n), Input(ops));
  }

  lemma ScansFirstOfTwo()
    ensures Appended(FRESH, "{1}{2}") == Fields("{1}{2}", 3, Outside, None, Some("{1}"))
  {
    var f := FRESH.(buffer := "{1}{2}");
    assert FRESH.buffer + f.buffer == f.buffer;
    var f1 := Fields(f.buffer, 1, InObject(1), Some(0), None);
    var f2 := f1.(scanPos := 2);
    var f3 := Fields(f.buffer, 3, Outside, None, Some("{1}"));
    assert f.buffer[0..3] == "{1}";
    assert ScanChar(f) == f1 && ScanChar(f1) == f2 && ScanChar(f2) == f3;
    assert Scan(f2) == Scan(f3) == f3;
    assert Scan(f) == Scan(f1) == Scan(f2);
  }

  lemma ExtractsSecond()
    ensures Extract("{2}") == ["{2}"]
  {
    var a := Consume(NOTHING, '{');
    var b := Consume(a, '2');
    var c := Consume(b, '}');
    assert "{2}"[1..] == "2}" && "2}"[1..] == "}" && "}"[1..] == "";
    assert ConsumeAll(b, "}") == ConsumeAll(c, "") == c;
    assert ConsumeAll(NOTHING, "{2}") == ConsumeAll(a, "2}") == c;
    assert "" + ['{'] + ['2'] + ['}'] == "{2}";
  }

  /** A malformed payload ahead of a complete object: the object is in the
      buffer, yet the next take reports that nothing is complete. */
  lemma ParseErrorHidesNextCall(decode: string -> Result<Wire, string>)
    requires decode("{1}").Failure?
    ensures var f := Appended(FRESH, "{1}{2}");
            var (g, first) := Taken(decode, f);
            && first == Failure(InvalidJson(decode("{1}").error))
            && Extract(g.buffer) == ["{2}"]
            && Taken(decode, g) == (g, Failure(NotComplete))
  {
    ScansFirstOfTwo();
    ExtractsSecond();
    assert "{1}{2}"[3..] == "{2}";
  }
}
