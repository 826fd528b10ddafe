/**
 The agent loop's running totals and its budget check. Counters saturate at the
 32-bit maximum; instants and durations are integers in one unit of time.
 */
module Budget {
  import opened Prelude
  import opened AiEvents

  function SaturatingAdd(a: u32, b: u32): (r: u32)
    ensures r as int == Capped(a + b)
  {
    if a > U32_MAX - b then U32_MAX else a + b
  }

  function Capped(n: nat): (r: nat)
    ensures r <= n && r <= U32_MAX && (r == n || r == U32_MAX)
  {
    if n < U32_MAX then n else U32_MAX
  }

  function TotalTokens(usage: Usage): u32 {
    SaturatingAdd(SaturatingAdd(usage.inputTokens, usage.outputTokens), usage.cachedInputTokens)
  }

  datatype Totals = Totals(usage: Usage, turnCount: u32, toolCallCount: u32, startedAt: int, lastEventAt: int)

  function Started(now: int): Totals {
    Totals(Usage(0, 0, 0), 0, 0, now, now)
  }

  /** One helper call on the totals. */
  datatype Update =
    | AddUsage(delta: Usage, now: int)
    | RecordTurn(now: int)
    | RecordToolCall(now: int)

  function Apply(t: Totals, u: Update): Totals {
    match u
    case AddUsage(delta, now) =>
      t.(usage := Usage(SaturatingAdd(t.usage.inputTokens, delta.inputTokens),
                        SaturatingAdd(t.usage.outputTokens, delta.outputTokens),
                        SaturatingAdd(t.usage.cachedInputTokens, delta.cachedInputTokens)),
         lastEventAt := now)
    case RecordTurn(now) => t.(turnCount := SaturatingAdd(t.turnCount, 1), lastEventAt := now)
    case RecordToolCall(now) => t.(toolCallCount := SaturatingAdd(t.toolCallCount, 1), lastEventAt := now)
  }

  function ApplyAll(t: Totals, updates: seq<Update>): Totals {
    if updates == [] then t else Apply(ApplyAll(t, updates[..|updates| - 1]), updates[|updates| - 1])
  }

  /** A clock that went backwards counts as no time at all. */
  function Elapsed(t: Totals): (r: nat)
    ensures r as int == t.lastEventAt - t.startedAt || (r == 0 && t.lastEventAt < t.startedAt)
  {
    if t.lastEventAt < t.startedAt then 0 else t.lastEventAt - t.startedAt
  }

  class AccumulatedUsage {
    var usage: Usage
    var turnCount: u32
    var toolCallCount: u32
    var startedAt: int
    var lastEventAt: int

    ghost function View(): Totals
      reads this
    {
      Totals(usage, turnCount, toolCallCount, startedAt, lastEventAt)
    }

    constructor StartedAt(now: int)
      ensures View() == Started(now)
    {
      usage, turnCount, toolCallCount := Usage(0, 0, 0), 0, 0;
      startedAt, lastEventAt := now, now;
    }

    method AddUsage(delta: Usage, now: int)
      modifies this
      ensures View() == Apply(old(View()), Update.AddUsage(delta, now))
    {
      usage := Usage(SaturatingAdd(usage.inputTokens, delta.inputTokens),
                     SaturatingAdd(usage.outputTokens, delta.outputTokens),
                     SaturatingAdd(usage.cachedInputTokens, delta.cachedInputTokens));
      lastEventAt := now;
    }

    method RecordTurn(now: int)
      modifies this
      ensures View() == Apply(old(View()), Update.RecordTurn(now))
    {
      turnCount := SaturatingAdd(turnCount, 1);
      lastEventAt := now;
    }

    method RecordToolCall(now: int)
      modifies this
      ensures View() == Apply(old(View()), Update.RecordToolCall(now))
    {
      toolCallCount := SaturatingAdd(toolCallCount, 1);
      lastEventAt := now;
    }
  }

  // ------------------------------------------------------------------
  // The budget.
  // ------------------------------------------------------------------

  datatype Dimension = Turns | Tokens | ToolCalls | WallClock

  datatype AgentLoopBudget = AgentLoopBudget(
    maxTurns: Option<u32>,
    maxTotalTokens: Option<u32>,
    maxWallClock: Option<nat>,
    maxToolCalls: Option<u32>)

  function IsExhausted(budget: AgentLoopBudget, t: Totals): Option<Dimension> {
    if budget.maxTurns.Some? && t.turnCount >= budget.maxTurns.value then Some(Turns)
    else if budget.maxTotalTokens.Some? && TotalTokens(t.usage) >= budget.maxTotalTokens.value then Some(Tokens)
    else if budget.maxToolCalls.Some? && t.toolCallCount >= budget.maxToolCalls.value then Some(ToolCalls)
    else if budget.maxWallClock.Some? && Elapsed(t) >= budget.maxWallClock.value then Some(WallClock)
    else None
  }

  // ------------------------------------------------------------------
  // Saturation is never observable.
  // ------------------------------------------------------------------

  /** Something counted over a run of updates, without any cap. */
  datatype Measure = InputTokens | OutputTokens | CachedTokens | TurnsRecorded | ToolCallsRecorded

  function Contribution(u: Update, m: Measure): nat {
    match m
    case InputTokens => if u.AddUsage? then u.delta.inputTokens else 0
    case OutputTokens => if u.AddUsage? then u.delta.outputTokens else 0
    case CachedTokens => if u.AddUsage? then u.delta.cachedInputTokens else 0
    case TurnsRecorded => if u.RecordTurn? then 1 else 0
    case ToolCallsRecorded => if u.RecordToolCall? then 1 else 0
  }

  function Sum(updates: seq<Update>, m: Measure): nat {
    if updates == [] then 0 else Sum(updates[..|updates| - 1], m) + Contribution(updates[|updates| - 1], m)
  }

  function TokenSum(updates: seq<Update>): nat {
    Sum(updates, InputTokens) + Sum(updates, OutputTokens) + Sum(updates, CachedTokens)
  }

  lemma {:induction false} EachCounterIsCapped(now: int, updates: seq<Update>)
    ensures var t := ApplyAll(Started(now), updates);
            && t.usage.inputTokens == Capped(Sum(updates, InputTokens))
            && t.usage.outputTokens == Capped(Sum(updates, OutputTokens))
            && t.usage.cachedInputTokens == Capped(Sum(updates, CachedTokens))
            && t.turnCount == Capped(Sum(updates, TurnsRecorded))
            && t.toolCallCount == Capped(Sum(updates, ToolCallsRecorded))
            && t.startedAt == now
            && t.lastEventAt == (if updates == [] then now else updates[|updates| - 1].now)
    decreases |updates|
  {
    if updates != [] {
      EachCounterIsCapped(now, updates[..|updates| - 1]);
    }
  }

  /** Although every component saturates on its own, the total is the true sum of
      all reports, capped once. */
  lemma {:induction false} TotalIsTheCappedSum(now: int, updates: seq<Update>)
    ensures TotalTokens(ApplyAll(Started(now), updates).usage) as int == Capped(TokenSum(updates))
  {
    EachCounterIsCapped(now, updates);
  }

  /** The verdict a check on unbounded counters would give. */
  function IdealVerdict(budget: AgentLoopBudget, now: int, updates: seq<Update>): Option<Dimension> {
    var last := if updates == [] then now else updates[|updates| - 1].now;
    if budget.maxTurns.Some? && Sum(updates, TurnsRecorded) >= budget.maxTurns.value then Some(Turns)
    else if budget.maxTotalTokens.Some? && TokenSum(updates) >= budget.maxTotalTokens.value then Some(Tokens)
    else if budget.maxToolCalls.Some? && Sum(updates, ToolCallsRecorded) >= budget.maxToolCalls.value then Some(ToolCalls)
    else if budget.maxWallClock.Some? && (budget.maxWallClock.value == 0 || last - now >= budget.maxWallClock.value)
    then Some(WallClock)
    else None
  }

  /** After any run of updates the check reports what it would report if no
      counter had ever saturated. */
  lemma {:induction false} VerdictIsIdeal(budget: AgentLoopBudget, now: int, updates: seq<Update>)
    ensures IsExhausted(budget, ApplyAll(Started(now), updates)) == IdealVerdict(budget, now, updates)
  {
    EachCounterIsCapped(now, updates);
    TotalIsTheCappedSum(now, updates);
  }

  // ------------------------------------------------------------------
  // Exhaustion lasts.
  // ------------------------------------------------------------------

  function Rank(d: Dimension): nat {
    match d
    case Turns => 0
    case Tokens => 1
    case ToolCalls => 2
    case WallClock => 3
  }

  predicate NonDecreasing(from: int, updates: seq<Update>) {
    && (updates != [] ==> from <= updates[0].now)
    && forall i, j :: 0 <= i < j < |updates| ==> updates[i].now <= updates[j].now
  }

  lemma CountsOnlyGrow(budget: AgentLoopBudget, t: Totals, u: Update)
    ensures var after := Apply(t, u);
            && t.turnCount <= after.turnCount && t.toolCallCount <= after.toolCallCount
            && TotalTokens(t.usage) <= TotalTokens(after.usage)
            && after.startedAt == t.startedAt && after.lastEventAt == u.now
  {}

  /** With a clock that does not go back, an exhausted budget stays exhausted and
      the reported dimension only moves towards `Turns`. */
  lemma {:induction false} ExhaustionLasts(budget: AgentLoopBudget, t: Totals, updates: seq<Update>)
    requires NonDecreasing(t.lastEventAt, updates) && IsExhausted(budget, t).Some?
    ensures var after := ApplyAll(t, updates);
            && IsExhausted(budget, after).Some?
            && Rank(IsExhausted(budget, after).value) <= Rank(IsExhausted(budget, t).value)
            && after.startedAt == t.startedAt
            && after.lastEventAt == (if updates == [] then t.lastEventAt else updates[|updates| - 1].now)
    decreases |updates|
  {
    if updates != [] {
      var init := updates[..|updates| - 1];
      ExhaustionLasts(budget, t, init);
      CountsOnlyGrow(budget, ApplyAll(t, init), updates[|updates| - 1]);
    }
  }

  /** Whatever the clock does, an update ends exhaustion exactly when only the wall
      clock was exhausted before, what it adds reaches no counter's cap, and its
      timestamp falls back inside a non-zero time limit. */
  lemma {:induction false} ExhaustionEndsExactlyWhen(budget: AgentLoopBudget, t: Totals, u: Update)
    requires IsExhausted(budget, t).Some?
    ensures IsExhausted(budget, Apply(t, u)).None? <==>
            && IsExhausted(budget, t) == Some(WallClock)
            && Below(t.turnCount + Contribution(u, TurnsRecorded), budget.maxTurns)
            && Below(TotalTokens(t.usage) + TokenSum([u]), budget.maxTotalTokens)
            && Below(t.toolCallCount + Contribution(u, ToolCallsRecorded), budget.maxToolCalls)
            && 0 < budget.maxWallClock.value
            && u.now - t.startedAt < budget.maxWallClock.value
  {
    CountsOnlyGrow(budget, t, u);
    TokensAdd(t, u);
  }

  predicate Below(n: int, cap: Option<u32>) {
    cap.Some? ==> n < cap.value
  }

  /** An update adds its tokens to the total, capped once. */
  lemma {:induction false} TokensAdd(t: Totals, u: Update)
    ensures TotalTokens(Apply(t, u).usage) as int == Capped(TotalTokens(t.usage) + TokenSum([u]))
  {
    assert [u][..0] == [];
    assert Sum([u], InputTokens) == Contribution(u, InputTokens);
    assert Sum([u], OutputTokens) == Contribution(u, OutputTokens);
    assert Sum([u], CachedTokens) == Contribution(u, CachedTokens);
  }
}
