/**
 * A middleware chain: an ordered list of steps, each of which either lets
 * the request continue or aborts it with `{status, message}`.  The chain
 * stops at the first step that aborts; when none does, the terminal handler
 * runs.
 */
module Pipeline {
  import opened Wrappers

  /** What an aborting step passes to `next`: an HTTP status and an error kind standing for the message. */
  datatype Failure<K> = Failure(status: int, error: K)

  /** What a handler sends back: a success status with its payload, or a failure. */
  datatype Response<T, K> = Success(status: int, data: T) | Error(failure: Failure<K>)

  /** The verdict of running `steps` in order: the failure of the first step that aborts, if any. */
  function FirstFailure<S, K>(steps: seq<S>, check: S -> Option<Failure<K>>): Option<Failure<K>>
  {
    if |steps| == 0 then None
    else if check(steps[0]).Some? then check(steps[0])
    else FirstFailure(steps[1..], check)
  }

  /** The chain lets a request through exactly when every one of its steps does. */
  lemma {:induction false} AllPass<S, K>(steps: seq<S>, check: S -> Option<Failure<K>>)
    ensures FirstFailure(steps, check).None? <==> forall i :: 0 <= i < |steps| ==> check(steps[i]).None?
  {
    if |steps| > 0 {
      AllPass(steps[1..], check);
      assert forall i :: 1 <= i < |steps| ==> steps[1..][i - 1] == steps[i];
    }
  }

  /** A step that aborts after every earlier step has passed decides the verdict; later steps never matter. */
  lemma {:induction false} FailsAt<S, K>(steps: seq<S>, check: S -> Option<Failure<K>>, i: nat)
    requires i < |steps| && check(steps[i]).Some?
    requires forall j :: 0 <= j < i ==> check(steps[j]).None?
    ensures FirstFailure(steps, check) == check(steps[i])
  {
    if i > 0 {
      assert steps[1..][i - 1] == steps[i];
      FailsAt(steps[1..], check, i - 1);
    }
  }

  /** The verdict of a failing chain is the failure of one of its steps, every earlier step having passed. */
  lemma {:induction false} FailureComesFromAStep<S, K>(steps: seq<S>, check: S -> Option<Failure<K>>)
    requires FirstFailure(steps, check).Some?
    ensures exists i :: 0 <= i < |steps| && check(steps[i]) == FirstFailure(steps, check)
                        && forall j :: 0 <= j < i ==> check(steps[j]).None?
  {
    if check(steps[0]).None? {
      FailureComesFromAStep(steps[1..], check);
      var i :| 0 <= i < |steps[1..]| && check(steps[1..][i]) == FirstFailure(steps[1..], check)
               && forall j :: 0 <= j < i ==> check(steps[1..][j]).None?;
      assert check(steps[i + 1]) == FirstFailure(steps, check);
      forall j | 0 <= j < i + 1
        ensures check(steps[j]).None?
      {
        if j > 0 { assert steps[j] == steps[1..][j - 1]; }
      }
    }
  }

  /** Running two chains one after the other is running their concatenation. */
  lemma {:induction false} Concat<S, K>(a: seq<S>, b: seq<S>, check: S -> Option<Failure<K>>)
    ensures FirstFailure(a + b, check)
            == if FirstFailure(a, check).Some? then FirstFailure(a, check) else FirstFailure(b, check)
  {
    if |a| > 0 {
      assert (a + b)[0] == a[0];
      assert (a + b)[1..] == a[1..] + b;
      Concat(a[1..], b, check);
    } else {
      assert a + b == b;
    }
  }

  /** Two step semantics that agree on every step of a chain give the chain the same verdict. */
  lemma {:induction false} SameVerdict<S, K>(steps: seq<S>, check: S -> Option<Failure<K>>, other: S -> Option<Failure<K>>)
    requires forall i :: 0 <= i < |steps| ==> check(steps[i]) == other(steps[i])
    ensures FirstFailure(steps, check) == FirstFailure(steps, other)
  {
    if |steps| > 0 {
      assert forall i :: 1 <= i < |steps| ==> steps[1..][i - 1] == steps[i];
      SameVerdict(steps[1..], check, other);
    }
  }
}
