/**
 * What one attempt of a fetch loop can run into, and what it leaves behind as
 * a `Retry.Step`. Browser automation is not modelled: each attempt is given
 * by its outcome.
 */
module Attempts {
  import opened Wrappers
  import opened Json
  import opened Retry

  /** One `response = await page.goto(api_url)` followed by `response.json()`. */
  datatype Navigation =
      /** `goto` returned no response. */
    | NoResponse
      /** A response with its `ok` flag; `body` is None when `response.json()` raised ValueError. */
    | Responded(ok: bool, body: Option<Doc>)
      /** `goto` raised a timeout. */
    | NavTimeout
      /** `goto` raised any other error. */
    | NavError

  /** The `len(...)` a feed logs after storing the payload and before `break`; it can raise. */
  datatype Probe =
    | NoProbe
      /** `len(json_data)` */
    | LenOfPayload
      /** `len(json_data.get('data', []))` */
    | LenOfData

  /** Whether the probe evaluates without raising. */
  predicate ProbeSucceeds(p: Probe, d: Doc) {
    match p
    case NoProbe => true
    case LenOfPayload => Sized(d)
    case LenOfData => DataMember(d).Some? && Sized(DataMember(d).value)
  }

  /** An ok response whose body parsed as JSON and survived the probe: the attempt that breaks. */
  predicate Good(a: Navigation, p: Probe) {
    a.Responded? && a.ok && a.body.Some? && ProbeSucceeds(p, a.body.value)
  }

  /** An ok response whose body did not parse: the attempt writes its raw text to a diagnostic file. */
  predicate Unparsable(a: Navigation) {
    a.Responded? && a.ok && a.body.None?
  }

  /**
   * One attempt of a direct-navigation loop: `json_data` is assigned as soon
   * as the body parses (even if the probe then raises), the loop breaks when
   * the probe succeeds, and an unparsable ok response is dumped.
   */
  function DirectStep(a: Navigation, p: Probe): Step<Option<Doc>> {
    match a
    case Responded(true, Some(d)) => Step(Some(Some(d)), ProbeSucceeds(p, d), false)
    case Responded(true, None) => Step(None, false, true)
    case _ => Step(None, false, false)
  }

  function DirectSteps(outcomes: seq<Navigation>, p: Probe): (steps: seq<Step<Option<Doc>>>)
    ensures |steps| == |outcomes|
    ensures forall i :: 0 <= i < |outcomes| ==> steps[i] == DirectStep(outcomes[i], p)
  {
    seq(|outcomes|, i requires 0 <= i < |outcomes| => DirectStep(outcomes[i], p))
  }

  /**
   * The first good response ends the loop: it is the attempt count, and its
   * parsed body is the payload.
   */
  lemma FirstGoodWins(outcomes: seq<Navigation>, p: Probe, k: nat)
    requires |outcomes| == MaxAttempts && k < MaxAttempts
    requires Good(outcomes[k], p) && forall j :: 0 <= j < k ==> !Good(outcomes[j], p)
    ensures Outcome(DirectSteps(outcomes, p), None).attempts == k + 1
    ensures Outcome(DirectSteps(outcomes, p), None).sleeps == k
    ensures Outcome(DirectSteps(outcomes, p), None).payload == outcomes[k].body
  {
    var steps := DirectSteps(outcomes, p);
    assert FirstDone(steps) == k by {
      assert steps[k].done;
      assert forall j :: 0 <= j < k ==> !steps[j].done;
      FirstDoneIs(steps, k);
    }
    LastAssignedStep(steps, k, None);
  }

  lemma {:induction false} FirstDoneIs<T>(steps: seq<Step<T>>, k: nat)
    requires k < |steps| && steps[k].done && forall j :: 0 <= j < k ==> !steps[j].done
    ensures FirstDone(steps) == k
  {
    if k > 0 {
      FirstDoneIs(steps[1..], k - 1);
    }
  }

  /**
   * With no good response all three attempts are made with a sleep between
   * each two, and the payload is the last parsed body (None if no body parsed).
   */
  lemma NoGoodResponse(outcomes: seq<Navigation>, p: Probe)
    requires |outcomes| == MaxAttempts && forall j :: 0 <= j < MaxAttempts ==> !Good(outcomes[j], p)
    ensures Outcome(DirectSteps(outcomes, p), None).attempts == MaxAttempts
    ensures Outcome(DirectSteps(outcomes, p), None).sleeps == MaxAttempts - 1
    ensures (forall j :: 0 <= j < MaxAttempts ==> !(outcomes[j].Responded? && outcomes[j].ok && outcomes[j].body.Some?))
      ==> Outcome(DirectSteps(outcomes, p), None).payload.None?
  {
    var steps := DirectSteps(outcomes, p);
    assert FirstDone(steps) == |steps|;
    assert steps[..3] == steps;
    LastAssignedStep(steps, 0, None);
    LastAssignedStep(steps, 1, None);
    LastAssignedStep(steps, 2, None);
  }

  /** Attempt `m` (1-based) leaves a diagnostic file exactly when it was made and its ok response did not parse. */
  lemma DumpedIffUnparsable(outcomes: seq<Navigation>, p: Probe, m: nat)
    requires |outcomes| == MaxAttempts
    ensures var o := Outcome(DirectSteps(outcomes, p), None);
      m in o.dumps <==> 1 <= m <= o.attempts && Unparsable(outcomes[m - 1])
  {
    var steps := DirectSteps(outcomes, p);
    DumpedMember(steps, AttemptsMade(steps), m);
  }

  /** One `page.evaluate(...)` that fetches the API from inside the page and returns the decoded JSON. */
  datatype Evaluation =
    | Evaluated(result: Doc)
    | EvalTimeout
    | EvalError

  /**
   * One attempt of an in-page loop: the result is stored, then `len(result)`
   * is logged, which raises for a number, boolean or null. With `dumpOnError`
   * the generic exception handler saves the page's HTML.
   */
  function EvaluateStep(a: Evaluation, dumpOnError: bool): Step<Option<Doc>> {
    match a
    case Evaluated(d) => Step(Some(Some(d)), Sized(d), dumpOnError && !Sized(d))
    case EvalTimeout => Step(None, false, false)
    case EvalError => Step(None, false, dumpOnError)
  }

  function EvaluateSteps(outcomes: seq<Evaluation>, dumpOnError: bool): (steps: seq<Step<Option<Doc>>>)
    ensures |steps| == |outcomes|
    ensures forall i :: 0 <= i < |outcomes| ==> steps[i] == EvaluateStep(outcomes[i], dumpOnError)
  {
    seq(|outcomes|, i requires 0 <= i < |outcomes| => EvaluateStep(outcomes[i], dumpOnError))
  }

  /**
   * An in-page loop breaks on the first evaluation that does not raise and
   * whose result has a length, even an empty one.
   */
  lemma FirstEvaluationWins(outcomes: seq<Evaluation>, dumpOnError: bool, k: nat)
    requires |outcomes| == MaxAttempts && k < MaxAttempts
    requires outcomes[k].Evaluated? && Sized(outcomes[k].result)
    requires forall j :: 0 <= j < k ==> !(outcomes[j].Evaluated? && Sized(outcomes[j].result))
    ensures Outcome(EvaluateSteps(outcomes, dumpOnError), None).attempts == k + 1
    ensures Outcome(EvaluateSteps(outcomes, dumpOnError), None).payload == Some(outcomes[k].result)
  {
    var steps := EvaluateSteps(outcomes, dumpOnError);
    FirstDoneIs(steps, k);
    LastAssignedStep(steps, k, None);
  }

  /** A diagnostic page dump is written exactly for the attempts that raised something other than a timeout. */
  lemma EvaluateDumps(outcomes: seq<Evaluation>, m: nat)
    requires |outcomes| == MaxAttempts
    ensures var o := Outcome(EvaluateSteps(outcomes, true), None);
      m in o.dumps <==>
        (1 <= m <= o.attempts && (outcomes[m - 1].EvalError? || (outcomes[m - 1].Evaluated? && !Sized(outcomes[m - 1].result))))
  {
    var steps := EvaluateSteps(outcomes, true);
    DumpedMember(steps, AttemptsMade(steps), m);
  }
}
