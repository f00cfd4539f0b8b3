/** A batch of desktop actions (ComputerTool._execute_calls and _batch_result): ordered execution with
    one pinned binding, no rollback and no replay. What the outside does, at every point where it can
    make a difference, is a function of how far the batch has come. */
module Batch {
  import opened Wrappers
  import opened Actions

  datatype Repeat = Absent | Count(n: int) | NotACount

  datatype Call = Call(action: Action, repeat: Repeat)

  const MAX_REPEAT := 100

  /** _key_repeat, asked for key actions only; None where it raises. */
  function Times(c: Call): (n: Option<nat>)
    ensures n.Some? ==> 1 <= n.value
  {
    if !c.action.Key? then Some(1)
    else match c.repeat
      case Absent => Some(1)
      case Count(n) => if 1 <= n <= MAX_REPEAT then Some(n) else None
      case NotACount => None
  }

  /** How often a call is to be done: as often as a key action says, within bounds, and anything else once. */
  lemma TimesMeaning(c: Call, n: nat)
    ensures Times(c) == Some(n) <==>
              if !c.action.Key? || c.repeat == Absent then n == 1 else c.repeat == Count(n) && 1 <= n <= 100
  {
  }

  /** The steps a call stands for; one with an unusable count never gets to any. */
  function Steps(c: Call): nat { if Times(c).Some? then Times(c).value else 0 }

  /** How a dispatched step ended, as the waiting coroutine gets to see it. A cancellation may find the
      worker still at it, or find that it has finished or failed in the meantime. */
  datatype Outcome = Finished | Raised | CancelledRunning | CancelledFinished | CancelledFailed

  predicate ReallyFinished(o: Outcome) { o.Finished? || o.CancelledFinished? }

  datatype World = World(
    readOnly: bool, gateWrites: bool, approved: bool,
    boundBefore: nat -> bool,       // the binding is still the pinned one when this call's turn comes
    boundAfter: nat -> bool,        // ... and when it has completed
    boundAtEnd: bool,               // ... and after the final capture
    step: nat -> Outcome,           // of the n-th dispatched step
    pauseCancelled: nat -> bool,    // a cancellation arrives between presses, after n steps
    packaged: bool)                 // the screenshot could be stored

  datatype Error = Changed | Blocked | NeedsApproval | Failed | Cancelled | CaptureFailed | NotStored

  /** The progress a batch reports. `dispatched` lists the steps handed to a worker, by the index of
      their call, with the number of calls standing for the final capture; an image is known by the
      step that took it. */
  datatype Report = Report(
    completed: nat, presses: nat, uncertain: Option<nat>, error: Option<Error>,
    image: Option<nat>, dispatched: seq<nat>)

  /** The first n calls as steps, each as often as it asks to be repeated. */
  function Expand(calls: seq<Call>, n: nat): seq<nat>
    requires n <= |calls|
  {
    if n == 0 then [] else Expand(calls, n - 1) + Presses(n - 1, Steps(calls[n - 1]))
  }

  function Presses(index: nat, times: nat): (s: seq<nat>)
    ensures |s| == times && forall k :: 0 <= k < times ==> s[k] == index
  {
    seq(times, _ => index)
  }

  /** The steps a batch may dispatch, in order. */
  function Plan(calls: seq<Call>): seq<nat> { Expand(calls, |calls|) + [|calls|] }

  lemma {:induction false} ExpandPrefix(calls: seq<Call>, a: nat, b: nat)
    requires a <= b <= |calls|
    ensures Expand(calls, a) <= Expand(calls, b)
  {
    if a < b { ExpandPrefix(calls, a, b - 1); }
  }

  /** The steps the report vouches for. */
  function Vouched(calls: seq<Call>, r: Report): nat
    requires r.completed <= |calls|
  {
    |Expand(calls, r.completed)| + r.presses
  }

  /** The report is the truth about what happened. */
  ghost predicate Truthful(calls: seq<Call>, w: World, r: Report) {
    && r.completed <= |calls|
    && (r.presses > 0 ==> r.completed < |calls| && calls[r.completed].action.Key?
                          && Times(calls[r.completed]).Some? && r.presses < Times(calls[r.completed]).value)
    && r.dispatched <= Plan(calls)
    && Vouched(calls, r) <= |r.dispatched| <= Vouched(calls, r) + 1
    && (forall d :: 0 <= d < Vouched(calls, r) ==> ReallyFinished(w.step(d)))
    && (|r.dispatched| > Vouched(calls, r) && r.completed < |calls| ==>
          !ReallyFinished(w.step(Vouched(calls, r))) && r.dispatched[Vouched(calls, r)] == r.completed)
  }

  /** When an action is named as possibly still in flight. */
  ghost predicate UncertainExactlyWhen(calls: seq<Call>, w: World, r: Report)
    requires r.completed <= |calls|
  {
    && (r.uncertain.Some? ==> r.uncertain.value == r.completed < |calls|)
    && (r.uncertain.Some? <==>
        && r.completed < |calls| && r.error.Some?
        && if |r.dispatched| > Vouched(calls, r) then w.step(Vouched(calls, r)) != CancelledFailed
           else r.error == Some(Failed))
    && (r.error == Some(Failed) && |r.dispatched| == Vouched(calls, r) ==>
          r.completed < |calls| && Times(calls[r.completed]).None?)
  }

  /** The last call, if it leaves a full screenshot behind. */
  predicate EndsInScreenshot(calls: seq<Call>) { calls != [] && calls[|calls| - 1].action.Screenshot? }

  /** The last step among the first n calls to take an image. */
  function LastImage(calls: seq<Call>, n: nat): Option<nat>
    requires n <= |calls|
  {
    if n == 0 then None
    else if TakesImage(calls[n - 1].action) then Some(|Expand(calls, n)| - 1)
    else LastImage(calls, n - 1)
  }

  /** What a batch that reports success has done. */
  ghost predicate Succeeded(calls: seq<Call>, captureAfter: bool, w: World, r: Report) {
    && r.completed == |calls| && r.presses == 0 && r.uncertain == None
    && (forall j :: 0 <= j < |calls| ==> Times(calls[j]).Some? && Allowed(calls, w, j) && w.boundAfter(j))
    && (r.image.Some? ==> w.packaged) && (|r.dispatched| > |Expand(calls, |calls|)| ==> w.boundAtEnd)
    && (captureAfter ==>
          && r.dispatched == (if EndsInScreenshot(calls) then Expand(calls, |calls|) else Plan(calls))
          && r.image == Some(|r.dispatched| - 1))
    && (!captureAfter ==> r.dispatched == Expand(calls, |calls|) && r.image == LastImage(calls, |calls|))
  }

  /** Every stop has its reason, and the reason is the one the report gives. */
  ghost predicate Explained(calls: seq<Call>, captureAfter: bool, w: World, r: Report)
    requires r.completed <= |calls|
  {
    var i, n := r.completed, |r.dispatched|;
    match r.error
    case None => true
    case Some(Changed) =>
      n == Vouched(calls, r) && ((i < |calls| && !w.boundBefore(i)) || (i > 0 && !w.boundAfter(i - 1)))
    case Some(Blocked) => i < |calls| && Mutating(calls[i].action) && w.readOnly
    case Some(NeedsApproval) => i < |calls| && Mutating(calls[i].action) && w.gateWrites && !w.approved
    case Some(Failed) => i < |calls| && (Times(calls[i]).None? || (n > 0 && w.step(n - 1).Raised?))
    case Some(Cancelled) => n > 0 && (w.pauseCancelled(n) || !(w.step(n - 1).Finished? || w.step(n - 1).Raised?))
    case Some(CaptureFailed) => i == |calls| && captureAfter && n > 0 && (w.step(n - 1).Raised? || !w.boundAtEnd)
    case Some(NotStored) => i == |calls| && !w.packaged && (captureAfter || LastImage(calls, |calls|).Some?)
  }

  /** Nothing was dispatched that was not allowed at its turn: the binding was the pinned one when the
      turn came and after every call before it, and a call that writes needs a target open to writing and,
      where writes are gated, approval. */
  ghost predicate Permitted(calls: seq<Call>, w: World, r: Report) {
    && (forall d :: 0 <= d < |r.dispatched| && r.dispatched[d] < |calls| ==> Allowed(calls, w, r.dispatched[d]))
    && (forall d, i :: 0 <= d < |r.dispatched| && 0 <= i < r.dispatched[d] && i < |calls| ==> w.boundAfter(i))
  }

  predicate Allowed(calls: seq<Call>, w: World, i: nat)
    requires i < |calls|
  {
    w.boundBefore(i) && (Mutating(calls[i].action) ==> !w.readOnly && (w.gateWrites ==> w.approved))
  }

  /** Nothing was dispatched after a step that failed or was cancelled, nor a further press after a
      cancellation between presses; and whatever stopped the batch is told. */
  ghost predicate Heeded(w: World, r: Report) {
    && (forall d :: 0 <= d < |r.dispatched| - 1 ==> w.step(d).Finished?)
    && (forall d :: 0 < d < |r.dispatched| && r.dispatched[d] == r.dispatched[d - 1] ==> !w.pauseCancelled(d))
    && (r.dispatched != [] && !w.step(|r.dispatched| - 1).Finished? ==>
          if w.step(|r.dispatched| - 1).Raised? then r.error == Some(Failed) || r.error == Some(CaptureFailed)
          else r.error == Some(Cancelled))
  }

  /** A report that is the truth in every respect. */
  ghost predicate Sound(calls: seq<Call>, captureAfter: bool, w: World, r: Report) {
    && Truthful(calls, w, r) && UncertainExactlyWhen(calls, w, r)
    && Explained(calls, captureAfter, w, r) && Permitted(calls, w, r) && Heeded(w, r)
  }

  /** Nothing gets in the way. */
  ghost predicate Undisturbed(calls: seq<Call>, w: World) {
    && (forall i :: 0 <= i < |calls| ==> w.boundBefore(i) && w.boundAfter(i) && Times(calls[i]).Some?)
    && (forall i :: 0 <= i < |calls| && Mutating(calls[i].action) ==> !w.readOnly && (w.gateWrites ==> w.approved))
    && (forall d: nat :: w.step(d).Finished? && !w.pauseCancelled(d))
    && w.boundAtEnd && w.packaged
  }

  /** All steps have finished, and none was taken after a cancellation. */
  ghost predicate AllFinished(w: World, dispatched: seq<nat>) {
    && (forall d :: 0 <= d < |dispatched| ==> w.step(d).Finished?)
    && forall d :: 0 < d < |dispatched| && dispatched[d] == dispatched[d - 1] ==> !w.pauseCancelled(d)
  }

  /** The binding was still the pinned one after each of the first i calls. */
  ghost predicate Unchanged(w: World, i: nat) { forall j :: 0 <= j < i ==> w.boundAfter(j) }

  /** The invariant: the first i calls are completed, and nothing else has been dispatched. */
  ghost predicate Completed(calls: seq<Call>, w: World, i: nat, dispatched: seq<nat>) {
    && i <= |calls| && dispatched == Expand(calls, i)
    && (forall j :: 0 <= j < i ==> Times(calls[j]).Some? && Allowed(calls, w, j))
    && (forall j :: 0 <= j < i - 1 ==> w.boundAfter(j))
    && AllFinished(w, dispatched)
  }

  /** ... and some presses of the next one. */
  ghost predicate Pressed(calls: seq<Call>, w: World, i: nat, k: nat, dispatched: seq<nat>) {
    && i < |calls| && (forall j :: 0 <= j <= i ==> Times(calls[j]).Some? && Allowed(calls, w, j))
    && Unchanged(w, i) && k <= Times(calls[i]).value
    && dispatched == Expand(calls, i) + Presses(i, k)
    && AllFinished(w, dispatched)
  }

  /** Steps of calls up to i, all of them allowed, with nothing changed before i, are permitted. */
  lemma {:induction false} PermittedUpTo(calls: seq<Call>, w: World, i: nat, k: nat, r: Report)
    requires i < |calls| && r.dispatched == Expand(calls, i) + Presses(i, k)
    requires (forall j :: 0 <= j < i || (j == i && k > 0) ==> Allowed(calls, w, j))
    requires (forall j :: 0 <= j < i - 1 || (0 <= j < i && k > 0) ==> w.boundAfter(j))
    ensures Permitted(calls, w, r)
  {
    forall d | 0 <= d < |r.dispatched| ensures r.dispatched[d] < i || (r.dispatched[d] == i && k > 0) {
      StepsOf(calls, i, d);
    }
  }

  lemma {:induction false} CompletedIsPermitted(calls: seq<Call>, w: World, r: Report)
    requires Completed(calls, w, r.completed, r.dispatched)
    ensures Permitted(calls, w, r)
  {
    forall d | 0 <= d < |r.dispatched| ensures r.dispatched[d] < r.completed { StepsOf(calls, r.completed, d); }
  }

  /** The next press is due: none has been taken yet, or no cancellation has come since the last. */
  predicate Due(w: World, k: nat, dispatched: seq<nat>) { k > 0 ==> !w.pauseCancelled(|dispatched|) }

  lemma {:induction false} OneMorePress(calls: seq<Call>, w: World, i: nat, k: nat, dispatched: seq<nat>)
    requires Pressed(calls, w, i, k, dispatched) && k < Times(calls[i]).value && Due(w, k, dispatched)
    ensures dispatched + [i] == Expand(calls, i) + Presses(i, k + 1) && dispatched + [i] <= Plan(calls)
    ensures k + 1 == Times(calls[i]).value ==> dispatched + [i] == Expand(calls, i + 1)
    ensures w.step(|dispatched|).Finished? ==> Pressed(calls, w, i, k + 1, dispatched + [i])
    ensures k + 1 == Times(calls[i]).value && w.step(|dispatched|).Finished? ==>
              Completed(calls, w, i + 1, dispatched + [i])
  {
    assert Presses(i, k) + [i] == Presses(i, k + 1);
    ExpandPrefix(calls, i + 1, |calls|);
    var n := Times(calls[i]).value;
    assert Presses(i, n) == Presses(i, k + 1) + Presses(i, n - k - 1);
    assert Expand(calls, i + 1) == Expand(calls, i) + Presses(i, n);
    assert dispatched + [i] <= Expand(calls, i + 1);
    PressIsDue(calls, w, i, k, dispatched);
  }

  lemma {:induction false} PressIsDue(calls: seq<Call>, w: World, i: nat, k: nat, dispatched: seq<nat>)
    requires Pressed(calls, w, i, k, dispatched) && Due(w, k, dispatched)
    ensures forall d :: 0 < d < |dispatched + [i]| && (dispatched + [i])[d] == (dispatched + [i])[d - 1] ==>
              !w.pauseCancelled(d)
  {
    var n := |dispatched|;
    if k == 0 && n > 0 {
      assert dispatched == Expand(calls, i);
      StepsOf(calls, i, n - 1);
    }
  }

  /** Stopped before or after a call: nothing is under way. */
  lemma {:induction false} StoppedBetween(calls: seq<Call>, captureAfter: bool, w: World, r: Report)
    requires Completed(calls, w, r.completed, r.dispatched) && r.presses == 0 && Explained(calls, captureAfter, w, r)
    requires r.error.Some? && if r.uncertain.Some?
      then r.error == Some(Failed) && r.uncertain.value == r.completed < |calls| && Times(calls[r.completed]).None?
      else r.error != Some(Failed)
    ensures Sound(calls, captureAfter, w, r)
  {
    ExpandPrefix(calls, r.completed, |calls|);
    CompletedIsPermitted(calls, w, r);
  }

  /** Stopped by a press that did not finish. */
  lemma {:induction false} StoppedInPress(
      calls: seq<Call>, captureAfter: bool, w: World, i: nat, k: nat, before: seq<nat>, r: Report)
    requires Pressed(calls, w, i, k, before) && k < Times(calls[i]).value && Due(w, k, before)
    requires !ReallyFinished(w.step(|before|))
    requires var o := w.step(|before|);
      r == Report(i, if calls[i].action.Key? then k else 0, if o == CancelledFailed then None else Some(i),
                  Some(if o == Raised then Failed else Cancelled), None, before + [i])
    ensures Sound(calls, captureAfter, w, r)
  {
    OneMorePress(calls, w, i, k, before);
    PressIsDue(calls, w, i, k, before);
    PermittedUpTo(calls, w, i, k + 1, r);
  }

  /** Stopped by a cancellation that found the press finished. */
  lemma {:induction false} StoppedAfterPress(
      calls: seq<Call>, captureAfter: bool, w: World, i: nat, k: nat, before: seq<nat>, r: Report)
    requires Pressed(calls, w, i, k, before) && k < Times(calls[i]).value && Due(w, k, before)
    requires w.step(|before|) == CancelledFinished
    requires var last := k + 1 == Times(calls[i]).value;
      r == Report(if last then i + 1 else i, if last then 0 else k + 1, None, Some(Cancelled), None, before + [i])
    ensures Sound(calls, captureAfter, w, r)
  {
    OneMorePress(calls, w, i, k, before);
    PressIsDue(calls, w, i, k, before);
    PermittedUpTo(calls, w, i, k + 1, r);
  }

  /** Stopped by a cancellation between two presses. */
  lemma {:induction false} StoppedBetweenPresses(
      calls: seq<Call>, captureAfter: bool, w: World, i: nat, k: nat, dispatched: seq<nat>, r: Report)
    requires Pressed(calls, w, i, k, dispatched) && 0 < k < Times(calls[i]).value
    requires w.pauseCancelled(|dispatched|) && r == Report(i, k, None, Some(Cancelled), None, dispatched)
    ensures Sound(calls, captureAfter, w, r)
  {
    PressesAreOnPlan(calls, i, k);
    PermittedUpTo(calls, w, i, k, r);
  }

  lemma {:induction false} PressesAreOnPlan(calls: seq<Call>, i: nat, k: nat)
    requires i < |calls| && k <= Steps(calls[i])
    ensures Expand(calls, i) + Presses(i, k) <= Plan(calls)
  {
    var n := Steps(calls[i]);
    assert Presses(i, n) == Presses(i, k) + Presses(i, n - k);
    assert Expand(calls, i + 1) == Expand(calls, i) + Presses(i, k) + Presses(i, n - k);
    ExpandPrefix(calls, i + 1, |calls|);
  }

  /** The error a call is stopped with before any of its steps, if any. */
  function Refusal(w: World, c: Call, bound: bool): Option<Error> {
    if !bound then Some(Changed)
    else if w.readOnly && Mutating(c.action) then Some(Blocked)
    else if w.gateWrites && Mutating(c.action) && !w.approved then Some(NeedsApproval)
    else None
  }

  /** The presses of one call. Going on means that all of them have finished. */
  method RunCall(
      calls: seq<Call>, captureAfter: bool, w: World, index: nat, before: seq<nat>, repeat: nat)
      returns (stop: Option<Report>, dispatched: seq<nat>)
    requires index < |calls| && Times(calls[index]) == Some(repeat) && Completed(calls, w, index, before)
    requires Allowed(calls, w, index) && Unchanged(w, index)
    ensures stop.None? ==> Completed(calls, w, index + 1, dispatched)
    ensures stop.Some? ==> stop.value.error.Some? && Sound(calls, captureAfter, w, stop.value)
    ensures stop.Some? ==> exists d: nat :: !w.step(d).Finished? || w.pauseCancelled(d)
  {
    var key := calls[index].action.Key?;
    var presses, press := 0, 0;
    dispatched := before;
    assert Presses(index, 0) == [] && before + [] == before;
    while press < repeat
      invariant 0 <= press <= repeat && presses == (if key then press else 0)
      invariant Pressed(calls, w, index, press, dispatched) && (press < repeat ==> Due(w, press, dispatched))
      invariant press == repeat ==> Completed(calls, w, index + 1, dispatched)
    {
      ghost var done := dispatched;
      var outcome := w.step(|dispatched|);
      OneMorePress(calls, w, index, press, dispatched);
      dispatched := dispatched + [index];
      if outcome == Finished {
        if key { presses := presses + 1; }
        press := press + 1;
        if press < repeat && w.pauseCancelled(|dispatched|) {
          var r := Report(index, presses, None, Some(Cancelled), None, dispatched);
          StoppedBetweenPresses(calls, captureAfter, w, index, press, dispatched, r);
          return Some(r), dispatched;
        }
      } else if outcome == CancelledFinished {
        if key { presses := presses + 1; }
        var r := if press + 1 == repeat then Report(index + 1, 0, None, Some(Cancelled), None, dispatched)
                 else Report(index, presses, None, Some(Cancelled), None, dispatched);
        StoppedAfterPress(calls, captureAfter, w, index, press, done, r);
        return Some(r), dispatched;
      } else {
        var uncertain := if outcome == CancelledFailed then None else Some(index);
        var error := if outcome == Raised then Failed else Cancelled;
        var r := Report(index, presses, uncertain, Some(error), None, dispatched);
        StoppedInPress(calls, captureAfter, w, index, press, done, r);
        return Some(r), dispatched;
      }
    }
    stop := None;
  }

  /** _execute_calls for a batch. */
  method Execute(calls: seq<Call>, captureAfter: bool, w: World) returns (r: Report)
    ensures Truthful(calls, w, r) && UncertainExactlyWhen(calls, w, r)
    ensures Explained(calls, captureAfter, w, r) && Permitted(calls, w, r) && Heeded(w, r)
    ensures r.error.None? ==> Succeeded(calls, captureAfter, w, r)
    ensures Undisturbed(calls, w) ==> r.error.None?
  {
    var dispatched: seq<nat>, image: Option<nat>, terminalFull, index := [], None, false, 0;
    while index < |calls|
      invariant 0 <= index <= |calls| && Completed(calls, w, index, dispatched) && Unchanged(w, index)
      invariant image == LastImage(calls, index) && terminalFull == (index > 0 && calls[index - 1].action.Screenshot?)
    {
      var call := calls[index];
      var stop;
      stop, dispatched := Turn(calls, captureAfter, w, index, dispatched);
      if stop.Some? { return stop.value; }
      terminalFull := call.action.Screenshot?;
      if TakesImage(call.action) { image := Some(|dispatched| - 1); }
      index := index + 1;
    }
    r := FinishBatch(calls, captureAfter, w, dispatched, image, terminalFull);
  }

  /** One turn of its loop: the checks before the call, the call, and the check after it. */
  method Turn(calls: seq<Call>, captureAfter: bool, w: World, index: nat, before: seq<nat>)
      returns (stop: Option<Report>, dispatched: seq<nat>)
    requires index < |calls| && Completed(calls, w, index, before) && Unchanged(w, index)
    ensures stop.None? ==> Completed(calls, w, index + 1, dispatched) && Unchanged(w, index + 1)
    ensures stop.Some? ==> stop.value.error.Some? && Sound(calls, captureAfter, w, stop.value)
    ensures stop.Some? ==> !Undisturbed(calls, w)
  {
    dispatched := before;
    var r;
    var refusal := Refusal(w, calls[index], w.boundBefore(index));
    if refusal.Some? {
      r := Report(index, 0, None, refusal, None, dispatched);
      StoppedBetween(calls, captureAfter, w, r);
      return Some(r), dispatched;
    }
    var repeat := Times(calls[index]);
    if repeat.None? {
      r := Report(index, 0, Some(index), Some(Failed), None, dispatched);
      StoppedBetween(calls, captureAfter, w, r);
      return Some(r), dispatched;
    }
    stop, dispatched := RunCall(calls, captureAfter, w, index, dispatched, repeat.value);
    if stop.None? && !w.boundAfter(index) {
      r := Report(index + 1, 0, None, Some(Changed), None, dispatched);
      StoppedBetween(calls, captureAfter, w, r);
      stop := Some(r);
    }
  }

  /** The final capture, and the packaging of the image. */
  method FinishBatch(calls: seq<Call>, captureAfter: bool, w: World, done: seq<nat>, last: Option<nat>,
      terminalFull: bool) returns (r: Report)
    requires Completed(calls, w, |calls|, done) && Unchanged(w, |calls|)
    requires last == LastImage(calls, |calls|) && terminalFull == EndsInScreenshot(calls)
    ensures Sound(calls, captureAfter, w, r)
    ensures r.error.None? ==> Succeeded(calls, captureAfter, w, r)
    ensures w.step(|done|).Finished? && w.boundAtEnd && w.packaged ==> r.error.None?
  {
    var dispatched, image := done, last;
    assert done + [|calls|] == Plan(calls) && done <= Plan(calls);
    forall d | 0 <= d < |done| ensures done[d] < |calls| { StepsOf(calls, |calls|, d); }
    if captureAfter && !terminalFull {
      var outcome := w.step(|dispatched|);
      dispatched := dispatched + [|calls|];
      if !outcome.Finished? {
        return Report(|calls|, 0, None, Some(if outcome.Raised? then CaptureFailed else Cancelled), None, dispatched);
      }
      image := Some(|dispatched| - 1);
      if !w.boundAtEnd { return Report(|calls|, 0, None, Some(CaptureFailed), None, dispatched); }
    }
    if image.Some? && !w.packaged { return Report(|calls|, 0, None, Some(NotStored), None, dispatched); }
    r := Report(|calls|, 0, None, None, image, dispatched);
  }

  /* What a reader of the report may conclude. */

  /** The dispatched steps are an in-order prefix of the plan; those vouched for are exactly the ones of
      the batch's actions that finished, and at most one more was dispatched. */
  lemma {:induction false} ReportsCountExactlyWhatFinished(calls: seq<Call>, w: World, r: Report, d: nat)
    requires Truthful(calls, w, r) && d < |r.dispatched|
    ensures r.dispatched[d] == Plan(calls)[d]
    ensures d < Vouched(calls, r) ==>
              ReallyFinished(w.step(d)) && r.dispatched[d] <= r.completed && r.dispatched[d] < |calls|
    ensures d >= Vouched(calls, r) ==> d == |r.dispatched| - 1
    ensures r.dispatched[d] < |calls| ==> (ReallyFinished(w.step(d)) <==> d < Vouched(calls, r))
  {
    var n := Vouched(calls, r);
    if r.completed < |calls| {
      ExpandPrefix(calls, r.completed + 1, |calls|);
    }
    StepsOf(calls, |calls|, d);
    if d < n {
      if r.presses > 0 {
        assert n <= |Expand(calls, r.completed + 1)|;
        StepsOf(calls, r.completed + 1, d);
        assert Plan(calls)[d] == Expand(calls, r.completed + 1)[d];
      } else {
        ExpandPrefix(calls, r.completed, |calls|);
        StepsOf(calls, r.completed, d);
        assert Plan(calls)[d] == Expand(calls, r.completed)[d];
      }
    } else if r.completed == |calls| {
      assert d == n == |Expand(calls, |calls|)|;
    }
  }

  lemma {:induction false} StepsOf(calls: seq<Call>, n: nat, d: nat)
    requires n <= |calls|
    ensures d < |Expand(calls, n)| ==> Expand(calls, n)[d] < n
  {
    if n > 0 && d < |Expand(calls, n)| {
      if d < |Expand(calls, n - 1)| { StepsOf(calls, n - 1, d); }
    }
  }

  /** A successful batch with a final capture shows the screen as it was after every other action, and
      took one capture more than it was asked to exactly when its last action was no screenshot. */
  lemma {:induction false} CaptureIsLast(calls: seq<Call>, w: World, r: Report)
    requires Succeeded(calls, true, w, r) && calls != []
    ensures r.image.Some? && r.image.value == |r.dispatched| - 1 && r.dispatched != []
    ensures var last := r.dispatched[|r.dispatched| - 1];
            last == |calls| || (last == |calls| - 1 && calls[last].action.Screenshot?)
    ensures |r.dispatched| == |Expand(calls, |calls|)| + (if calls[|calls| - 1].action.Screenshot? then 0 else 1)
  {
    var n := |calls|;
    assert Expand(calls, n) == Expand(calls, n - 1) + Presses(n - 1, Times(calls[n - 1]).value);
  }

  /** An action that was dispatched and did not finish is reported as uncertain, except for one: it
      failed just before the cancellation that was reported instead. */
  lemma {:induction false} UncertainUnlessTheFailureWasLost(calls: seq<Call>, w: World, r: Report)
    requires Truthful(calls, w, r) && UncertainExactlyWhen(calls, w, r) && r.error.Some?
    requires |r.dispatched| == Vouched(calls, r) + 1 && r.dispatched[|r.dispatched| - 1] < |calls|
    ensures !ReallyFinished(w.step(|r.dispatched| - 1))
    ensures r.uncertain == Some(r.dispatched[|r.dispatched| - 1]) <==> w.step(|r.dispatched| - 1) != CancelledFailed
  {
    var n := Vouched(calls, r);
    ReportsCountExactlyWhatFinished(calls, w, r, n);
  }

  const LOST_FAILURE: World :=
    World(false, false, false, _ => true, _ => true, true, _ => CancelledFailed, _ => false, true)

  /** The exception at work: a click is dispatched and fails, and the report names nothing as uncertain. */
  method ALostFailureIsNotReported() returns (r: Report)
    ensures r.dispatched == [0] && r.completed == 0 && r.error == Some(Cancelled) && r.uncertain == None
    ensures !ReallyFinished(LOST_FAILURE.step(0))
  {
    var calls := [Call(LeftClick, Absent)];
    r := Execute(calls, false, LOST_FAILURE);
    assert Presses(0, 1) == [0] && Expand(calls, 0) == [] && Expand(calls, 1) == [] + Presses(0, 1);
    assert Plan(calls) == [0, 1];
    if |r.dispatched| > 0 { assert !ReallyFinished(LOST_FAILURE.step(0)); }
    assert r.completed == 0 && r.presses == 0;
    assert r.error != None;
    assert |r.dispatched| == 1;
  }
}
