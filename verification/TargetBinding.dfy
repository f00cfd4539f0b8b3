/** The delivery target one operation is bound to (target_binding.py). */
module TargetBinding {
  import opened Wrappers

  /** A window identifier, or None when the platform cannot tell. */
  type Target = Option<string>

  datatype Bound = NotBound | BoundTo(target: Target) {
    /** check(): bound and different, including a change from or to None. */
    predicate Rejects(current: Target) { BoundTo? && current != target }

    predicate Verified() { BoundTo? && target.Some? }
  }

  class TargetBinding {
    var bound: bool
    var boundTarget: Target

    ghost function State(): Bound
      reads this
    {
      if bound then BoundTo(boundTarget) else NotBound
    }

    constructor ()
      ensures State() == NotBound
    {
      bound, boundTarget := false, None;
    }

    method Bind(target: Target)
      modifies this
      ensures State() == BoundTo(target)
    {
      boundTarget := target;
      bound := true;
    }

    /** False for TargetChangedError. */
    method Check(current: Target) returns (ok: bool)
      ensures ok == !State().Rejects(current)
    {
      if !bound { return true; }
      ok := current == boundTarget;
    }

    method Release()
      modifies this
      ensures State() == NotBound && boundTarget == None
    {
      bound := false;
      boundTarget := None;
    }
  }
}
