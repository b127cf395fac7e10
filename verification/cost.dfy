/** Token and cost accounting over a per-model price table. Prices and costs are exact
    reals here; token counts are unbounded integers, as in Python. */
module Cost {
  import opened Wrappers

  /** USD per thousand input and output tokens. */
  datatype Pricing = Pricing(input: real, output: real)

  /** `MODEL_COSTS`. */
  const ModelCosts: map<string, Pricing> := map[
    "gpt-4" := Pricing(0.03, 0.06),
    "gpt-4-turbo" := Pricing(0.01, 0.03),
    "gpt-4o" := Pricing(0.005, 0.015),
    "gpt-3.5-turbo" := Pricing(0.0005, 0.0015),
    "claude-3-opus-20240229" := Pricing(0.015, 0.075),
    "claude-3-sonnet-20240229" := Pricing(0.003, 0.015),
    "claude-3-5-sonnet-20240620" := Pricing(0.003, 0.015),
    "claude-3-haiku-20240307" := Pricing(0.00025, 0.00125),
    "gemini-pro" := Pricing(0.00025, 0.0005),
    "gemini-1.5-pro" := Pricing(0.0035, 0.0105),
    "gemini-1.5-flash" := Pricing(0.00035, 0.00105)
  ]

  /** No price in the table is negative. */
  lemma PricesNonNegative(model: string)
    requires model in ModelCosts
    ensures ModelCosts[model].input >= 0.0 && ModelCosts[model].output >= 0.0
  {
  }

  /** One entry of `call_history`. */
  datatype CallRecord = CallRecord(model: string, inputTokens: int, outputTokens: int, cost: real)

  /** The tracker's four attributes. */
  datatype CostTracker = CostTracker(
    totalInputTokens: int,
    totalOutputTokens: int,
    totalCost: real,
    callHistory: seq<CallRecord>)

  /** A freshly constructed tracker. */
  function NewTracker(): (t: CostTracker)
    ensures Consistent(t) && t.callHistory == []
  {
    CostTracker(0, 0, 0.0, [])
  }

  function SumInput(h: seq<CallRecord>): int
  {
    if h == [] then 0 else h[0].inputTokens + SumInput(h[1..])
  }

  function SumOutput(h: seq<CallRecord>): int
  {
    if h == [] then 0 else h[0].outputTokens + SumOutput(h[1..])
  }

  function SumCost(h: seq<CallRecord>): real
  {
    if h == [] then 0.0 else h[0].cost + SumCost(h[1..])
  }

  /** The running totals agree with the call log. */
  predicate Consistent(t: CostTracker)
  {
    && t.totalInputTokens == SumInput(t.callHistory)
    && t.totalOutputTokens == SumOutput(t.callHistory)
    && t.totalCost == SumCost(t.callHistory)
  }

  /** Summing over a log extended by one record adds that record's fields. */
  lemma {:induction false} SumsAppend(h: seq<CallRecord>, c: CallRecord)
    ensures SumInput(h + [c]) == SumInput(h) + c.inputTokens
    ensures SumOutput(h + [c]) == SumOutput(h) + c.outputTokens
    ensures SumCost(h + [c]) == SumCost(h) + c.cost
  {
    if h != [] {
      assert (h + [c])[1..] == h[1..] + [c];
      SumsAppend(h[1..], c);
    }
  }

  /** `estimate_cost`: zero for a model without a price, otherwise the per-thousand
      prices applied to each token count. */
  function EstimateCost(model: string, inputTokens: int, outputTokens: int): (c: real)
    ensures model !in ModelCosts ==> c == 0.0
    ensures model in ModelCosts ==>
      c * 1000.0 == inputTokens as real * ModelCosts[model].input
                  + outputTokens as real * ModelCosts[model].output
  {
    if model !in ModelCosts then 0.0
    else
      var pricing := ModelCosts[model];
      (inputTokens as real / 1000.0) * pricing.input + (outputTokens as real / 1000.0) * pricing.output
  }

  /** The estimate grows with each token count and is never negative for non-negative counts. */
  lemma EstimateCostMonotone(model: string, in1: int, out1: int, in2: int, out2: int)
    requires in1 <= in2 && out1 <= out2
    ensures EstimateCost(model, in1, out1) <= EstimateCost(model, in2, out2)
    ensures 0 <= in1 && 0 <= out1 ==> EstimateCost(model, in1, out1) >= 0.0
  {
    if model in ModelCosts {
      var p := ModelCosts[model];
      PricesNonNegative(model);
      assert (in1 as real / 1000.0) * p.input <= (in2 as real / 1000.0) * p.input;
      assert (out1 as real / 1000.0) * p.output <= (out2 as real / 1000.0) * p.output;
    }
  }

  /** `add_call`: an explicit cost is recorded as given, otherwise it is estimated. */
  function AddCall(t: CostTracker, model: string, inputTokens: int, outputTokens: int,
                   cost: Option<real> := None): (r: CostTracker)
    ensures |r.callHistory| == |t.callHistory| + 1
    ensures r.callHistory[..|t.callHistory|] == t.callHistory
    ensures var c := r.callHistory[|t.callHistory|];
            && c.model == model && c.inputTokens == inputTokens && c.outputTokens == outputTokens
            && c.cost == (if cost.Some? then cost.value else EstimateCost(model, inputTokens, outputTokens))
    ensures r.totalInputTokens == t.totalInputTokens + inputTokens
    ensures r.totalOutputTokens == t.totalOutputTokens + outputTokens
    ensures Consistent(t) ==> Consistent(r)
  {
    var c := match cost case Some(v) => v case None => EstimateCost(model, inputTokens, outputTokens);
    var record := CallRecord(model, inputTokens, outputTokens, c);
    SumsAppend(t.callHistory, record);
    CostTracker(t.totalInputTokens + inputTokens, t.totalOutputTokens + outputTokens,
                t.totalCost + c, t.callHistory + [record])
  }

  /** The dictionary `get_summary` returns. */
  datatype Summary = Summary(totalCalls: nat, totalInputTokens: int, totalOutputTokens: int,
                             totalTokens: int, totalCostUsd: real)

  /** `get_summary`: for a consistent tracker, the totals are the sums over the log. */
  function GetSummary(t: CostTracker): (s: Summary)
    ensures s.totalCalls == |t.callHistory|
    ensures s.totalTokens == s.totalInputTokens + s.totalOutputTokens
    ensures Consistent(t) ==>
      && s.totalInputTokens == SumInput(t.callHistory)
      && s.totalOutputTokens == SumOutput(t.callHistory)
      && s.totalCostUsd == SumCost(t.callHistory)
  {
    Summary(|t.callHistory|, t.totalInputTokens, t.totalOutputTokens,
            t.totalInputTokens + t.totalOutputTokens, t.totalCost)
  }

  /** `reset`: every attribute returns to its freshly constructed value. */
  function Reset(t: CostTracker): (r: CostTracker)
    ensures r == NewTracker()
    ensures Consistent(r) && r.callHistory == []
    ensures r.totalInputTokens == 0 && r.totalOutputTokens == 0 && r.totalCost == 0.0
  {
    t.(totalInputTokens := 0, totalOutputTokens := 0, totalCost := 0.0, callHistory := [])
  }

  /** Recording a sequence of calls from a fresh tracker: the summary counts every call
      and every token. */
  function Replay(calls: seq<CallRecord>): (t: CostTracker)
    ensures Consistent(t)
    ensures t.callHistory == calls
  {
    if calls == [] then NewTracker()
    else
      var last := calls[|calls| - 1];
      var prefix := calls[..|calls| - 1];
      assert calls == prefix + [last];
      AddCall(Replay(prefix), last.model, last.inputTokens, last.outputTokens, Some(last.cost))
  }
}
