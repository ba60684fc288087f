/** How a call of the modelled Python code can end, and the usual optional value. */
module Outcomes {

  datatype Option<+T> = None | Some(value: T)

  /** Done: it returned. Failed: it raised, and an `except Exception` can catch that.
      RecoveryFailed: it raised, and the recovery it had started raised as well.
      Killed: the worker died, so no handler or later statement of the call ran. */
  datatype Outcome = Done | Failed | RecoveryFailed | Killed {

    predicate IsFailure() {
      !Done?
    }

    function PropagateFailure(): Outcome
      requires IsFailure()
    {
      this
    }
  }

  /** The environment decides how a call ends and, unless it is Done, whether it took effect.
      A reliable environment lets every call succeed and does not kill the worker. */
  method Attempt(reliable: bool) returns (r: Outcome, effect: bool)
    ensures r.Done? ==> effect
    ensures reliable ==> r.Done?
    ensures !r.RecoveryFailed?
  {
    r, effect := *, *;
    if reliable || r.RecoveryFailed? { r := Done; }
    if r.Done? { effect := true; }
  }

  /** A call that only inspects. */
  method Ask(reliable: bool) returns (r: Outcome)
    ensures reliable ==> r.Done?
    ensures !r.RecoveryFailed?
  {
    var effect;
    r, effect := Attempt(reliable);
  }
}
