/**
 * The lifecycle pipeline executor: stages composed strictly in order, each
 * fed the previous stage's output, abandoned at the first failure. The
 * promise chain of the source becomes sequential threading of a Result.
 */
module Pipeline {
  import opened Values
  import opened Errors

  type Step = Value -> Result<Value>

  /** The payloads the invoked stages were fed, in order, and the pipeline's outcome. */
  datatype Run = Run(fed: seq<Value>, result: Result<Value>)

  /**
   * `run` is what threading `payload` through `steps` produces: stage 0 is fed
   * the payload; every stage but the last invoked one succeeded and fed its
   * output to the next; a failure stops the pipeline with the failing stage's
   * error; success means every stage ran and the last one's output is the result.
   */
  ghost predicate Threads(steps: seq<Step>, payload: Value, run: Run)
  {
    && |run.fed| <= |steps|
    && (|steps| > 0 ==> |run.fed| > 0 && run.fed[0] == payload)
    && (forall i :: 0 <= i < |run.fed| - 1 ==> steps[i](run.fed[i]) == Success(run.fed[i + 1]))
    && (run.result.Failure? ==> 0 < |run.fed| && steps[|run.fed| - 1](run.fed[|run.fed| - 1]) == run.result)
    && (run.result.Success? ==>
          && |run.fed| == |steps|
          && (|steps| == 0 ==> run.result == Success(payload))
          && (|steps| > 0 ==> steps[|steps| - 1](run.fed[|steps| - 1]) == run.result))
  }

  function Execute(steps: seq<Step>, payload: Value): (run: Run)
    ensures Threads(steps, payload, run)
    decreases |steps|
  {
    if steps == [] then Run([], Success(payload))
    else
      match steps[0](payload)
      case Failure(e) => Run([payload], Failure(e))
      case Success(next) =>
        var rest := Execute(steps[1..], next);
        Run([payload] + rest.fed, rest.result)
  }

  /** Threads pins the run down completely: Execute is the only run it admits. */
  lemma {:induction false} ThreadsIsUnique(steps: seq<Step>, payload: Value, run: Run)
    requires Threads(steps, payload, run)
    ensures run == Execute(steps, payload)
    decreases |steps|
  {
    if steps != [] && |run.fed| > 1 {
      var next := run.fed[1];
      assert steps[0](payload) == Success(next);
      var tail := Run(run.fed[1..], run.result);
      forall i | 0 <= i < |tail.fed| - 1
        ensures steps[1..][i](tail.fed[i]) == Success(tail.fed[i + 1])
      {
        assert steps[i + 1](run.fed[i + 1]) == Success(run.fed[i + 2]);
      }
      assert Threads(steps[1..], next, tail);
      ThreadsIsUnique(steps[1..], next, tail);
      assert run.fed == [payload] + tail.fed;
    }
  }

  /** Continue a run with further stages, if it has not failed. */
  function Then(run: Run, more: seq<Step>): (r: Run)
  {
    match run.result
    case Failure(_) => run
    case Success(out) =>
      var rest := Execute(more, out);
      Run(run.fed + rest.fed, rest.result)
  }

  /** Running a + b is running a, then b on a's output: a failure in a means b never runs. */
  lemma {:induction false} ExecuteAppend(a: seq<Step>, b: seq<Step>, payload: Value)
    ensures Execute(a + b, payload) == Then(Execute(a, payload), b)
    decreases |a|
  {
    if a == [] {
      assert a + b == b;
    } else if a[0](payload).Failure? {
      assert (a + b)[0] == a[0];
    } else {
      var next := a[0](payload).value;
      ExecuteAppend(a[1..], b, next);
      ExecuteAppendStep(a, b, payload, next);
    }
  }

  /** The inductive step of ExecuteAppend: a first stage that succeeds. */
  lemma ExecuteAppendStep(a: seq<Step>, b: seq<Step>, payload: Value, next: Value)
    requires a != [] && a[0](payload) == Success(next)
    requires Execute(a[1..] + b, next) == Then(Execute(a[1..], next), b)
    ensures Execute(a + b, payload) == Then(Execute(a, payload), b)
  {
    var ra, rest := Execute(a[1..], next), Execute(a[1..] + b, next);
    assert Execute(a + b, payload) == Run([payload] + rest.fed, rest.result) by {
      assert (a + b)[0] == a[0];
      assert (a + b)[1..] == a[1..] + b;
    }
    assert Execute(a, payload) == Run([payload] + ra.fed, ra.result);
    if ra.result.Success? {
      var rb := Execute(b, ra.result.value);
      assert rest == Run(ra.fed + rb.fed, rb.result);
      ConsAppend(payload, ra.fed, rb.fed);
    }
  }

  lemma ConsAppend(x: Value, p: seq<Value>, q: seq<Value>)
    ensures [x] + (p + q) == ([x] + p) + q
  {
  }

  /** A stage that fails on every payload is the last one that can run, and the pipeline fails. */
  lemma {:induction false} AlwaysFailingStageStops(steps: seq<Step>, payload: Value, k: nat)
    requires k < |steps|
    requires forall v :: steps[k](v).Failure?
    ensures Execute(steps, payload).result.Failure?
    ensures |Execute(steps, payload).fed| <= k + 1
    decreases k
  {
    if k > 0 {
      match steps[0](payload)
      case Failure(_) =>
      case Success(next) =>
        assert steps[1..][k - 1] == steps[k];
        AlwaysFailingStageStops(steps[1..], next, k - 1);
    }
  }

  /** A stage that passes its payload through, as an omitted hook does. */
  function Identity(): (r: Step)
  {
    v => Success(v)
  }

  /** Inserting a pass-through stage anywhere changes the outcome of no pipeline. */
  lemma IdentityStageIsInvisible(a: seq<Step>, b: seq<Step>, payload: Value)
    ensures Execute(a + [Identity()] + b, payload).result == Execute(a + b, payload).result
  {
    ExecuteAppend(a, [Identity()] + b, payload);
    assert a + [Identity()] + b == a + ([Identity()] + b);
    ExecuteAppend(a, b, payload);
    var ra := Execute(a, payload);
    if ra.result.Success? {
      var out := ra.result.value;
      assert ([Identity()] + b)[1..] == b;
      assert Execute([Identity()] + b, out).result == Execute(b, out).result;
    }
  }
}
