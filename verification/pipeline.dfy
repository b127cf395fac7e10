/** The CAIR refinement loop: one generation, then bounded review/refine passes with a
    placeholder score that can end the loop early. */
module Pipeline {
  import opened Wrappers
  import opened Core
  import opened Exceptions
  import opened Providers
  import opened Framework

  /** A pipeline object: its roles, its bounds and the framework it owns. */
  datatype CAIRPipeline = CAIRPipeline(
    generatorRole: Role,
    reviewerRole: Role,
    refinerRole: Role,
    qaRole: Role,
    maxIterations: int,
    qualityThreshold: real,
    framework: AIFramework)

  /** `CAIRPipeline(...)`: every argument may be omitted; the framework starts empty. */
  function NewPipeline(generatorRole: Role := Generator, reviewerRole: Role := Reviewer,
                       refinerRole: Role := Refiner, qaRole: Role := QaAnalyst,
                       maxIterations: int := 3, qualityThreshold: real := 0.85): (p: CAIRPipeline)
    ensures p.generatorRole == generatorRole && p.reviewerRole == reviewerRole
    ensures p.refinerRole == refinerRole && p.qaRole == qaRole
    ensures p.maxIterations == maxIterations && p.qualityThreshold == qualityThreshold
    ensures p.framework == Init() && Valid(p.framework)
  {
    CAIRPipeline(generatorRole, reviewerRole, refinerRole, qaRole, maxIterations, qualityThreshold, Init())
  }

  /** The defaults: the four standard roles, three passes, threshold 0.85. */
  lemma PipelineDefaults()
    ensures var p := NewPipeline();
            && p.generatorRole == Generator && p.reviewerRole == Reviewer
            && p.refinerRole == Refiner && p.qaRole == QaAnalyst
            && p.maxIterations == 3 && p.qualityThreshold == 0.85
  {
  }

  /** The placeholder quality score after pass `i` (0-based), in exact arithmetic. */
  function Score(i: nat): real
  {
    0.7 + (i as real) * 0.1
  }

  /** The number of passes `range(max_iterations)` allows. */
  function Budget(maxIterations: int): nat
  {
    if maxIterations < 0 then 0 else maxIterations
  }

  function ReviewPrompt(output: string): string { "Review this output: " + output }

  function RefinePrompt(feedback: string): string { "Refine based on feedback: " + feedback }

  /** A run that raised: the framework as the dispatches before the raise left it (mock
      counters already moved stay moved) and the error raised. */
  datatype Aborted = Aborted(framework: AIFramework, cause: FrameworkError)

  /** One dispatch the pipeline made: the role and the prompt it was sent. */
  datatype Call = Call(role: Role, prompt: string)

  /** The framework after dispatching `calls` in order from `fw`; a call to an unconfigured
      role raises before touching anything, so it leaves the state as it was. */
  function Perform(fw: AIFramework, calls: seq<Call>): (r: AIFramework)
    requires Valid(fw)
    ensures Valid(r) && SameWiring(fw, r)
    decreases |calls|
  {
    if calls == [] then fw
    else
      var before := Perform(fw, calls[..|calls| - 1]);
      var c := calls[|calls| - 1];
      match Dispatch(before, c.role, c.prompt)
      case Success(d) =>
        SameWiringTransitive(fw, before, d.fw);
        d.fw
      case Failure(_) => before
  }

  /** Dispatching a log in two parts is dispatching it whole. */
  lemma {:induction false} PerformAppend(fw: AIFramework, a: seq<Call>, b: seq<Call>)
    requires Valid(fw)
    ensures Perform(fw, a + b) == Perform(Perform(fw, a), b)
    decreases |b|
  {
    if b == [] {
      assert a + b == a;
    } else {
      var b' := b[..|b| - 1];
      assert (a + b)[..|a + b| - 1] == a + b';
      assert (a + b)[|a + b| - 1] == b[|b| - 1];
      PerformAppend(fw, a, b');
    }
  }

  /** When every logged call goes to a role served by the mock under provider name `n`, the
      mock has counted each of them. */
  lemma {:induction false} PerformCounts(fw: AIFramework, calls: seq<Call>, n: string)
    requires Valid(fw) && n in fw.providers && fw.providers[n].MockInstance?
    requires forall k :: 0 <= k < |calls| ==>
               calls[k].role in fw.agents && fw.agents[calls[k].role].provider == n
    ensures n in Perform(fw, calls).providers
    ensures Perform(fw, calls).providers[n]
            == MockInstance(MockProvider(fw.providers[n].mock.callCount + |calls|))
    decreases |calls|
  {
    if calls != [] {
      var prefix := calls[..|calls| - 1];
      forall k | 0 <= k < |prefix|
        ensures prefix[k].role in fw.agents && fw.agents[prefix[k].role].provider == n
      {
        assert prefix[k] == calls[k];
      }
      PerformCounts(fw, prefix, n);
      var before := Perform(fw, prefix);
      var c := calls[|calls| - 1];
      assert c.role in before.agents && before.agents[c.role].provider == n;
    }
  }

  /** The loop's live state: the framework, the current output, the append-only history,
      the last score and the dispatches made so far. */
  datatype LoopState = LoopState(
    fw: AIFramework,
    current: string,
    history: seq<string>,
    score: real,
    calls: seq<Call>)

  /** The output a review/refine pass produces from the previous output. */
  function Refined(fw: AIFramework, p: CAIRPipeline, previous: string): string
    requires Valid(fw) && p.reviewerRole in fw.agents && p.refinerRole in fw.agents
  {
    Reply(fw, p.refinerRole, RefinePrompt(Reply(fw, p.reviewerRole, ReviewPrompt(previous))))
  }

  /** The two dispatches pass `j` makes, reviewing `previous`. */
  predicate PassCalls(fw: AIFramework, p: CAIRPipeline, calls: seq<Call>, j: nat, previous: string)
    requires Valid(fw) && p.reviewerRole in fw.agents
    requires 2 + 2 * j < |calls|
  {
    && calls[1 + 2 * j] == Call(p.reviewerRole, ReviewPrompt(previous))
    && calls[2 + 2 * j] == Call(p.refinerRole, RefinePrompt(Reply(fw, p.reviewerRole, ReviewPrompt(previous))))
  }

  /** A pass refines the same way in two states with the same wiring. */
  lemma RefinedRewired(fw: AIFramework, fw': AIFramework, p: CAIRPipeline, previous: string)
    requires Valid(fw) && SameWiring(fw, fw') && p.reviewerRole in fw.agents && p.refinerRole in fw.agents
    ensures Valid(fw') && p.reviewerRole in fw'.agents && p.refinerRole in fw'.agents
    ensures Refined(fw, p, previous) == Refined(fw', p, previous)
  {
    var review := ReviewPrompt(previous);
    ReplyDependsOnWiring(fw, fw', p.reviewerRole, review);
    ReplyDependsOnWiring(fw, fw', p.refinerRole, RefinePrompt(Reply(fw, p.reviewerRole, review)));
  }

  /** A pass dispatches the same calls in two states with the same wiring. */
  lemma PassCallsRewired(fw: AIFramework, fw': AIFramework, p: CAIRPipeline, calls: seq<Call>, j: nat, previous: string)
    requires Valid(fw) && SameWiring(fw, fw') && p.reviewerRole in fw.agents
    requires 2 + 2 * j < |calls|
    ensures Valid(fw') && p.reviewerRole in fw'.agents
    ensures PassCalls(fw, p, calls, j, previous) == PassCalls(fw', p, calls, j, previous)
  {
    ReplyDependsOnWiring(fw, fw', p.reviewerRole, ReviewPrompt(previous));
  }

  /** The first of the roles a run needs that has no configuration. */
  function FirstMissing(fw: AIFramework, p: CAIRPipeline): Role
  {
    if p.generatorRole !in fw.agents then p.generatorRole
    else if p.reviewerRole !in fw.agents then p.reviewerRole
    else p.refinerRole
  }

  /** One pass of the `for` loop body: review the current output, refine from the
      feedback alone, append the refined output and score the pass. */
  function Pass(p: CAIRPipeline, context: Value, i: nat, s: LoopState): (r: Result<LoopState, Aborted>)
    requires Valid(s.fw)
    ensures r.Failure? <==> p.reviewerRole !in s.fw.agents || p.refinerRole !in s.fw.agents
    ensures r.Failure? ==>
      r.error.cause == RoleNotConfigured(RoleValue(
        if p.reviewerRole !in s.fw.agents then p.reviewerRole else p.refinerRole))
    ensures r.Failure? ==> Valid(r.error.framework) && SameWiring(s.fw, r.error.framework)
    ensures r.Failure? && p.reviewerRole !in s.fw.agents ==> r.error.framework == s.fw
    ensures r.Failure? && p.reviewerRole in s.fw.agents ==>
      r.error.framework == Dispatch(s.fw, p.reviewerRole, ReviewPrompt(s.current), context).value.fw
    ensures r.Success? ==>
      && p.reviewerRole in s.fw.agents && p.refinerRole in s.fw.agents
      && Valid(r.value.fw) && SameWiring(s.fw, r.value.fw)
      && r.value.current == Refined(s.fw, p, s.current)
      && r.value.history == s.history + [r.value.current]
      && r.value.score == Score(i)
      && r.value.calls == s.calls + [Call(p.reviewerRole, ReviewPrompt(s.current)),
                                     Call(p.refinerRole, RefinePrompt(Reply(s.fw, p.reviewerRole, ReviewPrompt(s.current))))]
      && r.value.fw == Perform(s.fw, [Call(p.reviewerRole, ReviewPrompt(s.current)),
                                      Call(p.refinerRole, RefinePrompt(Reply(s.fw, p.reviewerRole, ReviewPrompt(s.current))))])
  {
    match Dispatch(s.fw, p.reviewerRole, ReviewPrompt(s.current), context)
    case Failure(e) => Failure(Aborted(s.fw, e))
    case Success(review) =>
      match Dispatch(review.fw, p.refinerRole, RefinePrompt(review.response), context)
      case Failure(e) => Failure(Aborted(review.fw, e))
      case Success(refine) =>
        ReplyDependsOnWiring(s.fw, review.fw, p.refinerRole, RefinePrompt(review.response));
        PassPerforms(s.fw, p, s.current, context, review, refine);
        Success(LoopState(
          refine.fw, refine.response, s.history + [refine.response], Score(i),
          s.calls + [Call(p.reviewerRole, ReviewPrompt(s.current)),
                     Call(p.refinerRole, RefinePrompt(review.response))]))
  }

  /** The two dispatches of a pass, replayed through `Perform`, leave the framework the
      pass leaves. */
  lemma PassPerforms(fw: AIFramework, p: CAIRPipeline, previous: string, context: Value,
                     review: Dispatched, refine: Dispatched)
    requires Valid(fw)
    requires Dispatch(fw, p.reviewerRole, ReviewPrompt(previous), context) == Success(review)
    requires Valid(review.fw)
    requires Dispatch(review.fw, p.refinerRole, RefinePrompt(review.response), context) == Success(refine)
    ensures Perform(fw, [Call(p.reviewerRole, ReviewPrompt(previous)),
                         Call(p.refinerRole, RefinePrompt(review.response))]) == refine.fw
  {
    var c1 := Call(p.reviewerRole, ReviewPrompt(previous));
    var c2 := Call(p.refinerRole, RefinePrompt(review.response));
    DispatchIgnoresContext(fw, c1.role, c1.prompt, context, Null);
    DispatchIgnoresContext(review.fw, c2.role, c2.prompt, context, Null);
    PerformPair(fw, c1, c2, review, refine);
  }

  /** Two calls that both succeed take the log to the state the second returns. */
  lemma PerformPair(fw: AIFramework, c1: Call, c2: Call, d1: Dispatched, d2: Dispatched)
    requires Valid(fw)
    requires Dispatch(fw, c1.role, c1.prompt) == Success(d1)
    requires Dispatch(d1.fw, c2.role, c2.prompt) == Success(d2)
    ensures Perform(fw, [c1, c2]) == d2.fw
  {
    PerformSingle(fw, c1, d1);
    PerformSnoc(fw, [c1], c2, d2);
    Pair(c1, c2);
  }

  /** A single call that succeeds takes the log to the state it returns. */
  lemma PerformSingle(fw: AIFramework, c: Call, d: Dispatched)
    requires Valid(fw)
    requires Dispatch(fw, c.role, c.prompt) == Success(d)
    ensures Perform(fw, [c]) == d.fw
  {
    assert [c][..0] == [];
  }

  /** A call that succeeds on the state the calls before it left takes the log to the
      state it returns. */
  lemma PerformSnoc(fw: AIFramework, calls: seq<Call>, c: Call, d: Dispatched)
    requires Valid(fw)
    requires Dispatch(Perform(fw, calls), c.role, c.prompt) == Success(d)
    ensures Perform(fw, calls + [c]) == d.fw
  {
    assert (calls + [c])[..|calls|] == calls;
  }

  /** Two singleton logs concatenate to the pair. */
  lemma Pair(c1: Call, c2: Call)
    ensures [c1] + [c2] == [c1, c2]
  {
  }

  /** `t` is what passes `i`, `i + 1`, ... produce from state `s`, ending as the loop does,
      and its framework is what the dispatches those passes logged do to `s`'s. */
  predicate Continues(p: CAIRPipeline, i: nat, s: LoopState, t: LoopState)
    requires Valid(s.fw) && |s.history| == i + 1 && |s.calls| == 1 + 2 * i
  {
    && ContinuesLog(p, i, s, t)
    && t.fw == Perform(s.fw, t.calls[1 + 2 * i..])
  }

  /** The outputs, scores and logged dispatches of passes `i`, `i + 1`, ... from state `s`. */
  predicate ContinuesLog(p: CAIRPipeline, i: nat, s: LoopState, t: LoopState)
    requires Valid(s.fw) && |s.history| == i + 1 && |s.calls| == 1 + 2 * i
    ensures ContinuesLog(p, i, s, t) ==> |t.calls| >= 1 + 2 * i
  {
    var n := |t.history| - 1;
    && Valid(t.fw) && SameWiring(s.fw, t.fw)
    && i <= n <= Budget(p.maxIterations)
    && (n > i ==> p.reviewerRole in s.fw.agents && p.refinerRole in s.fw.agents)
    && t.history[..i + 1] == s.history
    && t.current == t.history[n]
    && (n == i ==> t.score == s.score)
    && (n > i ==> t.score == Score(n - 1))
    && (forall j :: i <= j < n - 1 ==> Score(j) < p.qualityThreshold)
    && (n == Budget(p.maxIterations) || (n > i && Score(n - 1) >= p.qualityThreshold))
    && (forall k :: i < k <= n ==> t.history[k] == Refined(s.fw, p, t.history[k - 1]))
    && |t.calls| == 1 + 2 * n
    && t.calls[..1 + 2 * i] == s.calls
    && (forall j :: i <= j < n ==> PassCalls(s.fw, p, t.calls, j, t.history[j]))
  }

  /** The passes from pass `i` on: the remainder of the `for` loop, stopping after the
      first pass whose score reaches the threshold or when the budget is spent. */
  function Passes(p: CAIRPipeline, context: Value, i: nat, s: LoopState): (r: Result<LoopState, Aborted>)
    requires Valid(s.fw)
    requires |s.history| == i + 1 && s.current == s.history[i]
    requires |s.calls| == 1 + 2 * i
    requires i <= Budget(p.maxIterations)
    decreases Budget(p.maxIterations) - i
    ensures r.Failure? <==>
      i < p.maxIterations && (p.reviewerRole !in s.fw.agents || p.refinerRole !in s.fw.agents)
    ensures r.Failure? ==>
      r.error.cause == RoleNotConfigured(RoleValue(
        if p.reviewerRole !in s.fw.agents then p.reviewerRole else p.refinerRole))
    ensures r.Failure? ==> r == Pass(p, context, i, s)
    ensures r.Failure? ==> Valid(r.error.framework) && SameWiring(s.fw, r.error.framework)
    ensures r.Success? ==> Continues(p, i, s, r.value)
  {
    if i >= p.maxIterations then
      assert s.history[..i + 1] == s.history;
      assert s.calls[..1 + 2 * i] == s.calls;
      assert s.calls[1 + 2 * i..] == [];
      Success(s)
    else
      match Pass(p, context, i, s)
      case Failure(e) => Failure(e)
      case Success(next) =>
        if Score(i) >= p.qualityThreshold then
          LastPass(p, s, next, i);
          Success(next)
        else
          var r := Passes(p, context, i + 1, next);
          if r.Success? then
            PassesStep(p, s, next, r.value, i);
            r
          else r
  }

  /** A pass whose score reaches the threshold ends the loop. */
  lemma LastPass(p: CAIRPipeline, s: LoopState, next: LoopState, i: nat)
    requires Valid(s.fw) && p.reviewerRole in s.fw.agents && p.refinerRole in s.fw.agents
    requires |s.history| == i + 1 && |s.calls| == 1 + 2 * i && s.current == s.history[i]
    requires i < p.maxIterations
    requires Valid(next.fw) && SameWiring(s.fw, next.fw)
    requires next.current == Refined(s.fw, p, s.current)
    requires next.history == s.history + [next.current] && next.score == Score(i)
    requires next.calls == s.calls + [Call(p.reviewerRole, ReviewPrompt(s.current)),
                                      Call(p.refinerRole, RefinePrompt(Reply(s.fw, p.reviewerRole, ReviewPrompt(s.current))))]
    requires next.fw == Perform(s.fw, [Call(p.reviewerRole, ReviewPrompt(s.current)),
                                       Call(p.refinerRole, RefinePrompt(Reply(s.fw, p.reviewerRole, ReviewPrompt(s.current))))])
    requires Score(i) >= p.qualityThreshold
    ensures Continues(p, i, s, next)
  {
    LastPassLog(p, s, next, i);
    assert next.calls[1 + 2 * i..] == next.calls[|s.calls|..];
  }

  /** The log part of `LastPass`. */
  lemma LastPassLog(p: CAIRPipeline, s: LoopState, next: LoopState, i: nat)
    requires Valid(s.fw) && p.reviewerRole in s.fw.agents && p.refinerRole in s.fw.agents
    requires |s.history| == i + 1 && |s.calls| == 1 + 2 * i && s.current == s.history[i]
    requires i < p.maxIterations
    requires Valid(next.fw) && SameWiring(s.fw, next.fw)
    requires next.current == Refined(s.fw, p, s.current)
    requires next.history == s.history + [next.current] && next.score == Score(i)
    requires next.calls == s.calls + [Call(p.reviewerRole, ReviewPrompt(s.current)),
                                      Call(p.refinerRole, RefinePrompt(Reply(s.fw, p.reviewerRole, ReviewPrompt(s.current))))]
    requires Score(i) >= p.qualityThreshold
    ensures ContinuesLog(p, i, s, next)
  {
    var n := i + 1;
    assert |next.history| - 1 == n;
    assert next.history[..i + 1] == s.history;
    assert next.calls[..1 + 2 * i] == s.calls;
    assert next.history[i] == s.current;
    assert next.history[n] == next.current;
    forall k | i < k <= n
      ensures next.history[k] == Refined(s.fw, p, next.history[k - 1])
    {
      assert next.history[k] == next.current && next.history[k - 1] == s.current;
    }
    forall j | i <= j < n
      ensures PassCalls(s.fw, p, next.calls, j, next.history[j])
    {
      assert j == i;
    }
  }

  /** Joins one pass to the passes after it (the recursive case of `Passes`). */
  lemma PassesStep(p: CAIRPipeline, s: LoopState, next: LoopState, t: LoopState, i: nat)
    requires Valid(s.fw) && p.reviewerRole in s.fw.agents && p.refinerRole in s.fw.agents
    requires |s.history| == i + 1 && |s.calls| == 1 + 2 * i && s.current == s.history[i]
    requires i < p.maxIterations && Score(i) < p.qualityThreshold
    requires Valid(next.fw) && SameWiring(s.fw, next.fw)
    requires next.current == Refined(s.fw, p, s.current)
    requires next.history == s.history + [next.current] && next.score == Score(i)
    requires next.calls == s.calls + [Call(p.reviewerRole, ReviewPrompt(s.current)),
                                      Call(p.refinerRole, RefinePrompt(Reply(s.fw, p.reviewerRole, ReviewPrompt(s.current))))]
    requires next.fw == Perform(s.fw, [Call(p.reviewerRole, ReviewPrompt(s.current)),
                                       Call(p.refinerRole, RefinePrompt(Reply(s.fw, p.reviewerRole, ReviewPrompt(s.current))))])
    requires Continues(p, i + 1, next, t)
    ensures Continues(p, i, s, t)
  {
    PassesStepLog(p, s, next, t, i);
    assert next.calls[1 + 2 * i..] == next.calls[|s.calls|..];
    PassesStepPerforms(s.fw, next.fw, t.calls, next.calls, i);
  }

  /** The log part of `PassesStep`. */
  lemma PassesStepLog(p: CAIRPipeline, s: LoopState, next: LoopState, t: LoopState, i: nat)
    requires Valid(s.fw) && p.reviewerRole in s.fw.agents && p.refinerRole in s.fw.agents
    requires |s.history| == i + 1 && |s.calls| == 1 + 2 * i && s.current == s.history[i]
    requires i < p.maxIterations && Score(i) < p.qualityThreshold
    requires Valid(next.fw) && SameWiring(s.fw, next.fw)
    requires next.current == Refined(s.fw, p, s.current)
    requires next.history == s.history + [next.current] && next.score == Score(i)
    requires next.calls == s.calls + [Call(p.reviewerRole, ReviewPrompt(s.current)),
                                      Call(p.refinerRole, RefinePrompt(Reply(s.fw, p.reviewerRole, ReviewPrompt(s.current))))]
    requires ContinuesLog(p, i + 1, next, t)
    ensures ContinuesLog(p, i, s, t)
  {
    assert t.history[..i + 1] == t.history[..i + 2][..i + 1];
    assert t.calls[..1 + 2 * i] == t.calls[..1 + 2 * (i + 1)][..1 + 2 * i];
    PassesStepRefines(p, s, next, t, i);
    PassesStepCalls(p, s, next, t, i);
  }

  /** Each output from pass `i` on refines the one before, in terms of `s`'s wiring. */
  lemma PassesStepRefines(p: CAIRPipeline, s: LoopState, next: LoopState, t: LoopState, i: nat)
    requires Valid(s.fw) && p.reviewerRole in s.fw.agents && p.refinerRole in s.fw.agents
    requires |s.history| == i + 1 && |s.calls| == 1 + 2 * i && s.current == s.history[i]
    requires i < p.maxIterations && Score(i) < p.qualityThreshold
    requires Valid(next.fw) && SameWiring(s.fw, next.fw)
    requires next.current == Refined(s.fw, p, s.current)
    requires next.history == s.history + [next.current] && next.score == Score(i)
    requires next.calls == s.calls + [Call(p.reviewerRole, ReviewPrompt(s.current)),
                                      Call(p.refinerRole, RefinePrompt(Reply(s.fw, p.reviewerRole, ReviewPrompt(s.current))))]
    requires ContinuesLog(p, i + 1, next, t)
    ensures forall k :: i < k < |t.history| ==> t.history[k] == Refined(s.fw, p, t.history[k - 1])
  {
    var n := |t.history| - 1;
    forall k | i < k <= n
      ensures t.history[k] == Refined(s.fw, p, t.history[k - 1])
    {
      if k == i + 1 {
        assert t.history[k] == next.history[i + 1];
        assert t.history[k - 1] == next.history[i] == s.history[i];
      } else {
        RefinedRewired(s.fw, next.fw, p, t.history[k - 1]);
      }
    }
  }

  /** Each pass from pass `i` on logs its two dispatches, in terms of `s`'s wiring. */
  lemma PassesStepCalls(p: CAIRPipeline, s: LoopState, next: LoopState, t: LoopState, i: nat)
    requires Valid(s.fw) && p.reviewerRole in s.fw.agents && p.refinerRole in s.fw.agents
    requires |s.history| == i + 1 && |s.calls| == 1 + 2 * i && s.current == s.history[i]
    requires i < p.maxIterations && Score(i) < p.qualityThreshold
    requires Valid(next.fw) && SameWiring(s.fw, next.fw)
    requires next.current == Refined(s.fw, p, s.current)
    requires next.history == s.history + [next.current] && next.score == Score(i)
    requires next.calls == s.calls + [Call(p.reviewerRole, ReviewPrompt(s.current)),
                                      Call(p.refinerRole, RefinePrompt(Reply(s.fw, p.reviewerRole, ReviewPrompt(s.current))))]
    requires ContinuesLog(p, i + 1, next, t)
    ensures forall j :: i <= j < |t.history| - 1 ==> PassCalls(s.fw, p, t.calls, j, t.history[j])
  {
    var n := |t.history| - 1;
    forall j | i <= j < n
      ensures PassCalls(s.fw, p, t.calls, j, t.history[j])
    {
      if j == i {
        assert t.calls[1 + 2 * i] == next.calls[1 + 2 * i];
        assert t.calls[2 + 2 * i] == next.calls[2 + 2 * i];
        assert t.history[i] == next.history[i] == s.history[i];
      } else {
        PassCallsRewired(s.fw, next.fw, p, t.calls, j, t.history[j]);
      }
    }
  }


  /** The dispatches of passes `i`, `i + 1`, ... are the two of pass `i` followed by the rest. */
  lemma PassesStepPerforms(fw: AIFramework, fw': AIFramework, calls: seq<Call>, prefix: seq<Call>, i: nat)
    requires Valid(fw) && |prefix| == 3 + 2 * i && 3 + 2 * i <= |calls|
    requires calls[..3 + 2 * i] == prefix
    requires fw' == Perform(fw, prefix[1 + 2 * i..])
    ensures Perform(fw', calls[3 + 2 * i..]) == Perform(fw, calls[1 + 2 * i..])
  {
    assert calls[1 + 2 * i..] == prefix[1 + 2 * i..] + calls[3 + 2 * i..];
    PerformAppend(fw, prefix[1 + 2 * i..], calls[3 + 2 * i..]);
  }

  /** A successful run: the framework afterwards, the result record and the dispatches made. */
  datatype Outcome = Outcome(framework: AIFramework, result: RefinementResult, calls: seq<Call>)

  /** The metadata a run records: the initial prompt and the context, verbatim. */
  function RunMetadata(prompt: string, context: Value): (m: map<string, Value>)
    ensures m.Keys == {"initial_prompt", "context"}
    ensures m["initial_prompt"] == Text(prompt) && m["context"] == context
  {
    map["initial_prompt" := Text(prompt), "context" := context]
  }

  /** Phase 6: assembles the result from the loop's final state. */
  function Finish(prompt: string, context: Value, t: LoopState): (o: Outcome)
    requires |t.history| > 0 && t.current == t.history[|t.history| - 1]
    ensures o.result.finalOutput == t.history[|t.history| - 1]
    ensures o.result.iterations == |o.result.history| && o.result.history == t.history
    ensures o.result.qualityScore == t.score
    ensures o.result.metadata == RunMetadata(prompt, context)
    ensures o.framework == t.fw && o.calls == t.calls
  {
    Outcome(t.fw, NewResult(t.current, t.score, |t.history|, t.history, Some(RunMetadata(prompt, context))), t.calls)
  }

  /** The state after phase 1, from the generator's dispatch. */
  function Start(p: CAIRPipeline, prompt: string, g: Dispatched): LoopState
  {
    LoopState(g.fw, g.response, [g.response], 0.0, [Call(p.generatorRole, prompt)])
  }

  /** What a successful run from `p.framework` produced: the history starts with the
      generator's reply and each later entry refines the one before; the run stops after the
      first pass whose score reaches the threshold, or when the budget is spent; the result
      reports the last entry, the history's length, the last score and the metadata; the
      dispatches are the generator's followed by each pass's review and refinement; and the
      framework afterwards is what those dispatches, performed in order, make of `p.framework`. */
  predicate RunShape(p: CAIRPipeline, prompt: string, context: Value, o: Outcome)
    requires Valid(p.framework)
  {
    && RunLog(p, prompt, context, o)
    && o.framework == Perform(p.framework, o.calls)
  }

  /** The result and the logged dispatches of a successful run. */
  predicate RunLog(p: CAIRPipeline, prompt: string, context: Value, o: Outcome)
    requires Valid(p.framework)
  {
    var fw := p.framework;
    var res := o.result;
    var h := res.history;
    var n := |h| - 1;
    && Valid(o.framework) && SameWiring(fw, o.framework)
    && |h| >= 1 && res.iterations == |h|
    && p.generatorRole in fw.agents
    && h[0] == Reply(fw, p.generatorRole, prompt)
    && res.finalOutput == h[n]
    && n <= Budget(p.maxIterations)
    && (p.maxIterations >= 1 ==> n >= 1)
    && res.qualityScore == (if n == 0 then 0.0 else Score(n - 1))
    && res.qualityScore >= 0.0
    && (forall j :: 0 <= j < n - 1 ==> Score(j) < p.qualityThreshold)
    && (n == Budget(p.maxIterations) || Score(n - 1) >= p.qualityThreshold)
    && (n > 0 ==> p.reviewerRole in fw.agents && p.refinerRole in fw.agents)
    && (forall k :: 0 < k <= n ==> h[k] == Refined(fw, p, h[k - 1]))
    && res.metadata == RunMetadata(prompt, context)
    && |o.calls| == 1 + 2 * n
    && o.calls[0] == Call(p.generatorRole, prompt)
    && (forall j :: 0 <= j < n ==> PassCalls(fw, p, o.calls, j, h[j]))
  }

  /** The framework a run that got past generation leaves behind when the first pass
      raises: the state after the generator's dispatch, and after the reviewer's dispatch
      too when only the refiner is missing. */
  predicate AbortedAfterGeneration(p: CAIRPipeline, prompt: string, context: Value, fw: AIFramework)
    requires Valid(p.framework) && p.generatorRole in p.framework.agents
  {
    var g := Dispatch(p.framework, p.generatorRole, prompt, context).value;
    if p.reviewerRole !in p.framework.agents then fw == g.fw
    else fw == Dispatch(g.fw, p.reviewerRole, ReviewPrompt(g.response), context).value.fw
  }

  /** `execute`: generate once, run the passes, assemble the result. Any dispatch error
      ends the run with that error and no result; the framework keeps what the dispatches
      before the error did to it (the generator's and, when the refiner is the missing role,
      the first reviewer's mock counters). */
  function Execute(p: CAIRPipeline, prompt: string, context: Value := Null): (r: Result<Outcome, Aborted>)
    requires Valid(p.framework)
    ensures r.Success? <==>
      p.generatorRole in p.framework.agents
      && (p.maxIterations >= 1 ==> p.reviewerRole in p.framework.agents && p.refinerRole in p.framework.agents)
    ensures r.Failure? ==> r.error.cause == RoleNotConfigured(RoleValue(FirstMissing(p.framework, p)))
    ensures r.Failure? ==> Valid(r.error.framework) && SameWiring(p.framework, r.error.framework)
    ensures r.Failure? && p.generatorRole !in p.framework.agents ==> r.error.framework == p.framework
    ensures r.Failure? && p.generatorRole in p.framework.agents ==> AbortedAfterGeneration(p, prompt, context, r.error.framework)
    ensures r.Success? ==> RunShape(p, prompt, context, r.value)
  {
    match Dispatch(p.framework, p.generatorRole, prompt, context)
    case Failure(e) => Failure(Aborted(p.framework, e))
    case Success(g) =>
      var s := Start(p, prompt, g);
      match Passes(p, context, 0, s)
      case Failure(e) =>
        SameWiringTransitive(p.framework, g.fw, e.framework);
        Failure(e)
      case Success(t) =>
        FinishShape(p, prompt, context, g, t);
        Success(Finish(prompt, context, t))
  }

  /** The result assembled from the passes after the generator's dispatch has the shape
      `RunShape` describes. */
  lemma FinishShape(p: CAIRPipeline, prompt: string, context: Value, g: Dispatched, t: LoopState)
    requires Valid(p.framework)
    requires Dispatch(p.framework, p.generatorRole, prompt, context) == Success(g)
    requires Continues(p, 0, Start(p, prompt, g), t)
    ensures RunShape(p, prompt, context, Finish(prompt, context, t))
  {
    FinishLog(p, prompt, context, g, t);
    FinishPerforms(p, prompt, context, g, t);
  }

  /** The log part of `FinishShape`. */
  lemma FinishLog(p: CAIRPipeline, prompt: string, context: Value, g: Dispatched, t: LoopState)
    requires Valid(p.framework)
    requires Dispatch(p.framework, p.generatorRole, prompt, context) == Success(g)
    requires ContinuesLog(p, 0, Start(p, prompt, g), t)
    ensures RunLog(p, prompt, context, Finish(prompt, context, t))
  {
    var s := Start(p, prompt, g);
    Rewire(p, p.framework, s, t);
    var o := Finish(prompt, context, t);
    assert o.result.history == t.history && o.calls == t.calls;
    assert t.history[0] == g.response == Reply(p.framework, p.generatorRole, prompt);
  }

  /** The framework after the passes is what the whole log, the generator's call first,
      does to the framework the run started from. */
  lemma FinishPerforms(p: CAIRPipeline, prompt: string, context: Value, g: Dispatched, t: LoopState)
    requires Valid(p.framework)
    requires Dispatch(p.framework, p.generatorRole, prompt, context) == Success(g)
    requires Valid(g.fw) && |t.calls| >= 1 && t.calls[..1] == [Call(p.generatorRole, prompt)]
    requires t.fw == Perform(g.fw, t.calls[1..])
    ensures t.fw == Perform(p.framework, t.calls)
  {
    var c := Call(p.generatorRole, prompt);
    DispatchIgnoresContext(p.framework, c.role, c.prompt, context, Null);
    PerformSingle(p.framework, c, g);
    assert t.calls == [c] + t.calls[1..];
    PerformAppend(p.framework, [c], t.calls[1..]);
  }

  /** Restates what the passes produced in terms of the state before the generator's
      dispatch, which has the same wiring. */
  lemma Rewire(p: CAIRPipeline, fw: AIFramework, s: LoopState, t: LoopState)
    requires Valid(fw) && SameWiring(fw, s.fw)
    requires Valid(s.fw) && |s.history| == 1 && |s.calls| == 1
    requires ContinuesLog(p, 0, s, t)
    ensures SameWiring(fw, t.fw)
    ensures t.history[0] == s.history[0] && t.calls[0] == s.calls[0]
    ensures |t.history| > 1 ==> p.reviewerRole in fw.agents && p.refinerRole in fw.agents
    ensures forall k :: 0 < k < |t.history| ==> t.history[k] == Refined(fw, p, t.history[k - 1])
    ensures forall j :: 0 <= j < |t.history| - 1 ==> PassCalls(fw, p, t.calls, j, t.history[j])
  {
    assert t.history[0] == t.history[..1][0];
    assert t.calls[0] == t.calls[..1][0];
    forall k | 0 < k < |t.history|
      ensures t.history[k] == Refined(fw, p, t.history[k - 1])
    {
      RefinedRewired(fw, s.fw, p, t.history[k - 1]);
    }
    forall j | 0 <= j < |t.history| - 1
      ensures PassCalls(fw, p, t.calls, j, t.history[j])
    {
      PassCallsRewired(fw, s.fw, p, t.calls, j, t.history[j]);
    }
  }

  /** Once the generator has answered, a run is the passes followed by the assembly. */
  lemma ExecuteUnfold(p: CAIRPipeline, prompt: string, context: Value, g: Dispatched)
    requires Valid(p.framework)
    requires Dispatch(p.framework, p.generatorRole, prompt, context) == Success(g)
    ensures Valid(Start(p, prompt, g).fw)
    ensures var q := Passes(p, context, 0, Start(p, prompt, g));
            Execute(p, prompt, context) ==
              if q.Failure? then Failure(q.error) else Success(Finish(prompt, context, q.value))
  {
  }

  /** Python's `for` loop with its `break`, run from the state after generation;
      it computes exactly what `Passes` does. */
  method RunPasses(p: CAIRPipeline, context: Value, s0: LoopState) returns (r: Result<LoopState, Aborted>)
    requires Valid(s0.fw) && |s0.history| == 1 && s0.current == s0.history[0] && |s0.calls| == 1
    ensures r == Passes(p, context, 0, s0)
  {
    var s := s0;
    var i: nat := 0;
    while i < p.maxIterations
      invariant i <= Budget(p.maxIterations)
      invariant Valid(s.fw) && |s.history| == i + 1 && s.current == s.history[i] && |s.calls| == 1 + 2 * i
      invariant Passes(p, context, i, s) == Passes(p, context, 0, s0)
      decreases p.maxIterations - i
    {
      var step := Pass(p, context, i, s);
      if step.Failure? {
        assert Passes(p, context, i, s) == Failure(step.error);
        return Failure(step.error);
      }
      ghost var previous := s;
      s := step.value;
      assert |s.history| == i + 2 && s.history[i + 1] == s.current;
      if s.score >= p.qualityThreshold {
        assert Passes(p, context, i, previous) == Success(s);
        break;
      }
      i := i + 1;
    }
    return Success(s);
  }

  /** `execute` as a method: generation, the loop, the assembly. It computes exactly
      what `Execute` does. */
  method ExecuteLoop(p: CAIRPipeline, prompt: string, context: Value) returns (r: Result<Outcome, Aborted>)
    requires Valid(p.framework)
    ensures r == Execute(p, prompt, context)
  {
    var generated := Dispatch(p.framework, p.generatorRole, prompt, context);
    if generated.Failure? {
      return Failure(Aborted(p.framework, generated.error));
    }
    var s := Start(p, prompt, generated.value);
    ExecuteUnfold(p, prompt, context, generated.value);
    var passes := RunPasses(p, context, s);
    if passes.Failure? {
      return Failure(passes.error);
    }
    return Success(Finish(prompt, context, passes.value));
  }

  /** The generator answers first and alone; every later dispatch goes to the reviewer or
      the refiner, alternating. The QA role is never dispatched unless it coincides with
      one of those three. */
  lemma DispatchedRoles(p: CAIRPipeline, prompt: string, context: Value, o: Outcome)
    requires Valid(p.framework)
    requires Execute(p, prompt, context) == Success(o)
    ensures o.calls[0] == Call(p.generatorRole, prompt)
    ensures forall k :: 0 < k < |o.calls| && k % 2 == 1 ==> o.calls[k].role == p.reviewerRole
    ensures forall k :: 0 < k < |o.calls| && k % 2 == 0 ==> o.calls[k].role == p.refinerRole
    ensures p.qaRole !in {p.generatorRole, p.reviewerRole, p.refinerRole} ==>
              forall k :: 0 <= k < |o.calls| ==> o.calls[k].role != p.qaRole
  {
    LogRoles(p, prompt, context, o);
  }

  /** The roles in the log of any outcome with the shape of a successful run. */
  lemma LogRoles(p: CAIRPipeline, prompt: string, context: Value, o: Outcome)
    requires Valid(p.framework)
    requires RunLog(p, prompt, context, o)
    ensures o.calls[0] == Call(p.generatorRole, prompt)
    ensures forall k :: 0 < k < |o.calls| && k % 2 == 1 ==> o.calls[k].role == p.reviewerRole
    ensures forall k :: 0 < k < |o.calls| && k % 2 == 0 ==> o.calls[k].role == p.refinerRole
    ensures p.qaRole !in {p.generatorRole, p.reviewerRole, p.refinerRole} ==>
              forall k :: 0 <= k < |o.calls| ==> o.calls[k].role != p.qaRole
  {
    PassRoles(p.framework, p, o.calls, o.result.history);
    forall k | 0 <= k < |o.calls|
      ensures o.calls[k].role in {p.generatorRole, p.reviewerRole, p.refinerRole}
    {
    }
  }

  /** The roles of a dispatch log made of a first call and then passes. */
  lemma PassRoles(fw: AIFramework, p: CAIRPipeline, calls: seq<Call>, h: seq<string>)
    requires Valid(fw) && |h| >= 1 && |calls| == 2 * |h| - 1
    requires |h| > 1 ==> p.reviewerRole in fw.agents
    requires forall j :: 0 <= j < |h| - 1 ==> PassCalls(fw, p, calls, j, h[j])
    ensures forall k :: 0 < k < |calls| && k % 2 == 1 ==> calls[k].role == p.reviewerRole
    ensures forall k :: 0 < k < |calls| && k % 2 == 0 ==> calls[k].role == p.refinerRole
  {
    forall k | 0 < k < |calls|
      ensures k % 2 == 1 ==> calls[k].role == p.reviewerRole
      ensures k % 2 == 0 ==> calls[k].role == p.refinerRole
    {
      var j := (k - 1) / 2;
      assert PassCalls(fw, p, calls, j, h[j]);
    }
  }

  /** With a threshold the first pass already meets (at most 0.7) and a budget of at least
      one, exactly one pass runs: two outputs in the history, score 0.7. */
  lemma LowThresholdSinglePass(p: CAIRPipeline, prompt: string, context: Value)
    requires Valid(p.framework)
    requires p.maxIterations >= 1 && p.qualityThreshold <= 0.7
    requires Execute(p, prompt, context).Success?
    ensures var res := Execute(p, prompt, context).value.result;
            res.iterations == 2 && res.qualityScore == 0.7
  {
  }

  /** With a threshold of at most 1.0, no run makes more than four passes and the score
      stays within [0, 1], as the result record documents. */
  lemma ScoreWithinUnitInterval(p: CAIRPipeline, prompt: string, context: Value)
    requires Valid(p.framework)
    requires p.qualityThreshold <= 1.0
    requires Execute(p, prompt, context).Success?
    ensures var res := Execute(p, prompt, context).value.result;
            res.iterations <= 5 && 0.0 <= res.qualityScore <= 1.0
  {
    assert Score(3) == 1.0;
  }

  /** When even the last pass of the budget scores below the threshold, the run spends the
      whole budget and ends with a score below the threshold. */
  lemma ExhaustsBudget(p: CAIRPipeline, prompt: string, context: Value)
    requires Valid(p.framework)
    requires p.maxIterations >= 1 && Score(p.maxIterations - 1) < p.qualityThreshold
    requires Execute(p, prompt, context).Success?
    ensures var res := Execute(p, prompt, context).value.result;
            res.iterations == p.maxIterations + 1 && res.qualityScore < p.qualityThreshold
  {
  }

  /** A framework with the generator, reviewer and refiner configured on one provider
      name and model, as the package's pipeline test sets up. */
  function WorkingRoles(installed: set<Vendor>, provider: string, model: string): (fw: AIFramework)
    ensures Valid(fw)
    ensures fw.agents.Keys == {Generator, Reviewer, Refiner}
    ensures forall r :: r in fw.agents ==> fw.agents[r].provider == provider && fw.agents[r].model == model
    ensures fw.providers == map[provider := GetProvider(provider, installed)]
  {
    var g := ConfigureAgent(Init(), installed, Generator, provider, model);
    var v := ConfigureAgent(g, installed, Reviewer, provider, model);
    ConfigureAgent(v, installed, Refiner, provider, model)
  }

  /** The default pipeline, once its three working roles are configured, makes all three
      passes and ends with score 0.9 in exact arithmetic and four outputs in the history. */
  lemma DefaultRun(installed: set<Vendor>, provider: string, model: string, prompt: string, context: Value)
    ensures var p := NewPipeline().(framework := WorkingRoles(installed, provider, model));
            var r := Execute(p, prompt, context);
            && r.Success?
            && r.value.result.iterations == 4
            && r.value.result.qualityScore == 0.9
  {
    var p := NewPipeline().(framework := WorkingRoles(installed, provider, model));
    assert Execute(p, prompt, context).Success?;
    assert Score(1) < p.qualityThreshold;
  }

  /** When the three roles share one mock provider, a successful run adds to its call
      counter one for the generation and two for each pass: `2 * iterations - 1` in all. */
  lemma RunCounts(p: CAIRPipeline, prompt: string, context: Value, o: Outcome, n: string)
    requires Valid(p.framework)
    requires Execute(p, prompt, context) == Success(o)
    requires n in p.framework.providers && p.framework.providers[n].MockInstance?
    requires p.generatorRole in p.framework.agents && p.framework.agents[p.generatorRole].provider == n
    requires p.reviewerRole in p.framework.agents && p.framework.agents[p.reviewerRole].provider == n
    requires p.refinerRole in p.framework.agents && p.framework.agents[p.refinerRole].provider == n
    ensures n in o.framework.providers
    ensures o.framework.providers[n] ==
              MockInstance(MockProvider(p.framework.providers[n].mock.callCount + 2 * o.result.iterations - 1))
  {
    LogCounts(p, prompt, context, o, n);
  }

  /** `RunCounts` for any outcome with the shape of a successful run. */
  lemma LogCounts(p: CAIRPipeline, prompt: string, context: Value, o: Outcome, n: string)
    requires Valid(p.framework)
    requires RunShape(p, prompt, context, o)
    requires n in p.framework.providers && p.framework.providers[n].MockInstance?
    requires p.generatorRole in p.framework.agents && p.framework.agents[p.generatorRole].provider == n
    requires p.reviewerRole in p.framework.agents && p.framework.agents[p.reviewerRole].provider == n
    requires p.refinerRole in p.framework.agents && p.framework.agents[p.refinerRole].provider == n
    ensures n in o.framework.providers
    ensures o.framework.providers[n] ==
              MockInstance(MockProvider(p.framework.providers[n].mock.callCount + 2 * o.result.iterations - 1))
  {
    var fw := p.framework;
    LogRoles(p, prompt, context, o);
    forall k | 0 <= k < |o.calls|
      ensures o.calls[k].role in fw.agents && fw.agents[o.calls[k].role].provider == n
    {
      assert o.calls[k].role in {p.generatorRole, p.reviewerRole, p.refinerRole};
    }
    PerformCounts(fw, o.calls, n);
  }

  /** The mock pipeline run makes five dispatches (one generation, two passes of two), all
      to the one mock provider, so its call counter ends at five. */
  lemma MockPipelineCallCount(installed: set<Vendor>)
    ensures var p := NewPipeline(maxIterations := 2).(framework := WorkingRoles(installed, "test", "test-model"));
            var r := Execute(p, "Test prompt", Dict(map["key" := Text("value")]));
            && r.Success?
            && "test" in r.value.framework.providers
            && r.value.framework.providers["test"] == MockInstance(MockProvider(5))
  {
    var p := NewPipeline(maxIterations := 2).(framework := WorkingRoles(installed, "test", "test-model"));
    var context := Dict(map["key" := Text("value")]);
    MockPipelineScenario(installed);
    var o := Execute(p, "Test prompt", context).value;
    TestProviderIsMock(installed);
    RunCounts(p, "Test prompt", context, o, "test");
  }

  /** The roles the mock pipeline run uses all go to a fresh mock under "test". */
  lemma TestProviderIsMock(installed: set<Vendor>)
    ensures var fw := WorkingRoles(installed, "test", "test-model");
            "test" in fw.providers && fw.providers["test"] == MockInstance(MockProvider(0))
  {
    assert GetProvider("test", installed) == MockInstance(NewMock());
  }

  /** The package's pipeline test: with a mock provider and a budget of two, both passes
      run, the score is 0.8 in exact arithmetic, and the metadata keeps the prompt and the context. */
  lemma MockPipelineScenario(installed: set<Vendor>)
    ensures var p := NewPipeline(maxIterations := 2).(framework := WorkingRoles(installed, "test", "test-model"));
            var r := Execute(p, "Test prompt", Dict(map["key" := Text("value")]));
            && r.Success?
            && r.value.result.iterations == 3
            && r.value.result.qualityScore == 0.8
            && r.value.result.metadata["initial_prompt"] == Text("Test prompt")
            && r.value.result.metadata["context"].entries["key"] == Text("value")
  {
    var p := NewPipeline(maxIterations := 2).(framework := WorkingRoles(installed, "test", "test-model"));
    var context := Dict(map["key" := Text("value")]);
    var r := Execute(p, "Test prompt", context);
    assert r.Success?;
    assert Score(0) < p.qualityThreshold;
    assert r.value.result.metadata == RunMetadata("Test prompt", context);
  }

  /** In the same setting, the first output is the mock's answer quoting the whole prompt. */
  lemma MockPipelineFirstOutput(installed: set<Vendor>, context: Value)
    ensures var p := NewPipeline(maxIterations := 2).(framework := WorkingRoles(installed, "test", "test-model"));
            var r := Execute(p, "Test prompt", context);
            && r.Success?
            && r.value.result.history[0] == "[Mock test-model] Response to: Test prompt..."
  {
    var p := NewPipeline(maxIterations := 2).(framework := WorkingRoles(installed, "test", "test-model"));
    MockGeneratorReply(installed);
    var r := Execute(p, "Test prompt", context);
    assert r.value.result.history[0] == Reply(p.framework, Generator, "Test prompt");
  }

  /** The generator's reply in the test setting, spelled out. */
  lemma MockGeneratorReply(installed: set<Vendor>)
    ensures var fw := WorkingRoles(installed, "test", "test-model");
            Reply(fw, Generator, "Test prompt") == "[Mock test-model] Response to: Test prompt..."
  {
    var fw := WorkingRoles(installed, "test", "test-model");
    assert fw.providers["test"] == MockInstance(NewMock());
    assert Reply(fw, Generator, "Test prompt") == MockText("test-model", "Test prompt");
    MockTextOfTestPrompt();
  }

  lemma MockTextOfTestPrompt()
    ensures MockText("test-model", "Test prompt") == "[Mock test-model] Response to: Test prompt..."
  {
    assert Take("Test prompt", PreviewLength) == "Test prompt";
    assert MockHead + "test-model" == "[Mock test-model";
    assert "[Mock test-model" + MockMiddle == "[Mock test-model] Response to: ";
    assert "[Mock test-model] Response to: " + "Test prompt" == "[Mock test-model] Response to: Test prompt";
  }

  /** A run whose reviewer is missing raises after the generator's dispatch, and the mock
      serving the generator keeps the call it counted. */
  lemma MissingReviewerKeepsGeneratorCall(installed: set<Vendor>)
    ensures var fw := ConfigureAgent(Init(), installed, Generator, "test", "test-model");
            var r := Execute(NewPipeline().(framework := fw), "Test prompt");
            && r.Failure?
            && r.error.cause == RoleNotConfigured("reviewer")
            && r.error.framework.providers["test"] == MockInstance(MockProvider(1))
  {
    var fw := ConfigureAgent(Init(), installed, Generator, "test", "test-model");
    var p := NewPipeline().(framework := fw);
    assert fw.providers["test"] == MockInstance(NewMock());
    var d := Dispatch(fw, Generator, "Test prompt");
    assert d.value.fw.providers["test"] == MockInstance(MockProvider(1));
    assert Reviewer !in fw.agents && FirstMissing(fw, p) == Reviewer;
    var r := Execute(p, "Test prompt");
    assert AbortedAfterGeneration(p, "Test prompt", Null, r.error.framework);
  }

  /** A run whose refiner is missing raises after the first review, and the shared mock has
      counted both the generator's and the reviewer's calls. */
  lemma MissingRefinerKeepsReviewerCall(installed: set<Vendor>)
    ensures var g := ConfigureAgent(Init(), installed, Generator, "test", "test-model");
            var fw := ConfigureAgent(g, installed, Reviewer, "test", "test-model");
            var r := Execute(NewPipeline().(framework := fw), "Test prompt");
            && r.Failure?
            && r.error.cause == RoleNotConfigured("refiner")
            && r.error.framework.providers["test"] == MockInstance(MockProvider(2))
  {
    var g := ConfigureAgent(Init(), installed, Generator, "test", "test-model");
    var fw := ConfigureAgent(g, installed, Reviewer, "test", "test-model");
    var p := NewPipeline().(framework := fw);
    assert fw.providers["test"] == MockInstance(NewMock());
    var d := Dispatch(fw, Generator, "Test prompt");
    assert d.value.fw.providers["test"] == MockInstance(MockProvider(1));
    var e := Dispatch(d.value.fw, Reviewer, ReviewPrompt(d.value.response));
    assert e.value.fw.providers["test"] == MockInstance(MockProvider(2));
    assert Refiner !in fw.agents && FirstMissing(fw, p) == Refiner;
    var r := Execute(p, "Test prompt");
    assert AbortedAfterGeneration(p, "Test prompt", Null, r.error.framework);
  }
}
