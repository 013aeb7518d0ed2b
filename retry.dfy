/**
 * The bounded retry loop every network step of the feeds uses:
 *
 *     for attempt in range(3):
 *         try: ... payload = ...; ... break
 *         except ...: ...
 *         if attempt < 2: sleep(2)
 *
 * Each attempt is reduced to a `Step`: the value it assigned to the payload
 * variable before finishing or raising (if any), whether it reached `break`,
 * and whether it wrote a per-attempt diagnostic file. Time is not modelled;
 * the sleeps are counted.
 */
module Retry {
  import opened Wrappers

  const MaxAttempts: nat := 3

  datatype Step<T> = Step(stored: Option<T>, done: bool, dumped: bool)

  /** What the loop leaves behind: the payload variable, attempts made, sleeps taken, and the (1-based) attempts that wrote a diagnostic file. */
  datatype Trace<T> = Trace(payload: T, attempts: nat, sleeps: nat, dumps: seq<nat>)

  /** Index of the first attempt that reaches `break`, or `|steps|` if none does. */
  function FirstDone<T>(steps: seq<Step<T>>): (k: nat)
    ensures k <= |steps|
    ensures k < |steps| ==> steps[k].done
    ensures forall j :: 0 <= j < k ==> !steps[j].done
  {
    if steps == [] then 0
    else if steps[0].done then 0
    else 1 + FirstDone(steps[1..])
  }

  /** The last value assigned by the given attempts, or `init` if none assigned one. */
  function LastAssigned<T>(steps: seq<Step<T>>, init: T): T {
    if steps == [] then init
    else match steps[|steps| - 1].stored
      case Some(v) => v
      case None => LastAssigned(steps[..|steps| - 1], init)
  }

  /** The attempt numbers (1-based) among the first `n` that wrote a diagnostic file. */
  function Dumped<T>(steps: seq<Step<T>>, n: nat): seq<nat>
    requires n <= |steps|
  {
    if n == 0 then [] else Dumped(steps, n - 1) + (if steps[n - 1].dumped then [n] else [])
  }

  /** Attempt `m` (1-based) is listed among the dumps of the first `n` attempts exactly when it is one of them and it dumped. */
  lemma {:induction false} DumpedMember<T>(steps: seq<Step<T>>, n: nat, m: nat)
    requires n <= |steps|
    ensures m in Dumped(steps, n) <==> 1 <= m <= n && steps[m - 1].dumped
  {
    if n > 0 {
      DumpedMember(steps, n - 1, m);
    }
  }

  lemma {:induction false} LastAssignedStep<T>(steps: seq<Step<T>>, i: nat, init: T)
    requires i < |steps|
    ensures LastAssigned(steps[..i + 1], init) == steps[i].stored.GetOr(LastAssigned(steps[..i], init))
  {
    assert steps[..i + 1][..i] == steps[..i];
  }

  /** How many attempts the loop makes: up to and including the first that breaks, all of them if none does. */
  function AttemptsMade<T>(steps: seq<Step<T>>): (n: nat)
    ensures n <= |steps|
    ensures |steps| > 0 ==> n >= 1
  {
    if FirstDone(steps) < |steps| then FirstDone(steps) + 1 else |steps|
  }

  /**
   * What the loop leaves behind: the payload variable holds the last value an
   * attempt made assigned (its initial value if none did), one sleep separates
   * each two consecutive attempts, and the dumps are those of the attempts made.
   */
  function Outcome<T>(steps: seq<Step<T>>, init: T): Trace<T> {
    var n := AttemptsMade(steps);
    Trace(LastAssigned(steps[..n], init), n, if n == 0 then 0 else n - 1, Dumped(steps, n))
  }

  /** An attempt that breaks ends the loop: later attempts are never made, so nothing they would do matters. */
  lemma {:induction false} BreakShortCircuits<T>(steps: seq<Step<T>>, later: seq<Step<T>>, k: nat, init: T)
    requires k < |steps| && |steps| == |later|
    requires steps[k].done && forall j :: 0 <= j < k ==> !steps[j].done
    requires steps[..k + 1] == later[..k + 1]
    ensures Outcome(steps, init) == Outcome(later, init)
    ensures Outcome(steps, init).attempts == k + 1
  {
    assert FirstDone(steps) == k;
    assert later[k] == steps[k] && forall j :: 0 <= j < k ==> later[j] == steps[j];
    assert FirstDone(later) == k;
    DumpedPrefix(steps, later, k + 1);
  }

  lemma {:induction false} DumpedPrefix<T>(steps: seq<Step<T>>, later: seq<Step<T>>, n: nat)
    requires n <= |steps| && n <= |later| && steps[..n] == later[..n]
    ensures Dumped(steps, n) == Dumped(later, n)
  {
    if n > 0 {
      assert steps[n - 1] == steps[..n][n - 1] == later[n - 1];
      assert steps[..n - 1] == steps[..n][..n - 1];
      assert later[..n - 1] == later[..n][..n - 1];
      DumpedPrefix(steps, later, n - 1);
    }
  }

  /** With every attempt failing, all attempts are made and the initial value survives unless some attempt assigned one. */
  lemma {:induction false} AllFailed<T>(steps: seq<Step<T>>, init: T)
    requires |steps| == MaxAttempts && forall j :: 0 <= j < |steps| ==> !steps[j].done && steps[j].stored.None?
    ensures Outcome(steps, init) == Trace(init, MaxAttempts, MaxAttempts - 1, Dumped(steps, MaxAttempts))
  {
    assert FirstDone(steps) == |steps|;
    assert steps[..3] == steps;
    LastAssignedStep(steps, 0, init);
    LastAssignedStep(steps, 1, init);
    LastAssignedStep(steps, 2, init);
  }

  /**
   * The fetch loop itself: at most `MaxAttempts` attempts, stopping at the
   * first that breaks, sleeping after every attempt except the one that breaks
   * and the last.
   */
  method RetryLoop<T>(steps: seq<Step<T>>, init: T) returns (payload: T, attempts: nat, sleeps: nat, dumps: seq<nat>)
    requires |steps| == MaxAttempts
    ensures Trace(payload, attempts, sleeps, dumps) == Outcome(steps, init)
    ensures 1 <= attempts <= MaxAttempts && sleeps == attempts - 1
  {
    payload, attempts, sleeps, dumps := init, 0, 0, [];
    while attempts < MaxAttempts
      invariant attempts <= MaxAttempts
      invariant sleeps == if attempts < MaxAttempts then attempts else MaxAttempts - 1
      invariant forall j :: 0 <= j < attempts ==> !steps[j].done
      invariant payload == LastAssigned(steps[..attempts], init)
      invariant dumps == Dumped(steps, attempts)
    {
      var s := steps[attempts];
      LastAssignedStep(steps, attempts, init);
      if s.stored.Some? {
        payload := s.stored.value;
      }
      if s.dumped {
        dumps := dumps + [attempts + 1];
      }
      attempts := attempts + 1;
      if s.done {
        assert FirstDone(steps) == attempts - 1;
        return;
      }
      if attempts < MaxAttempts {
        sleeps := sleeps + 1;
      }
    }
    assert FirstDone(steps) == |steps|;
  }
}
