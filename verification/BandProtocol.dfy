/** The disclosure band of one channel (ComputerTool._band_enter/_band_exit, _acquire_batch_band,
    execute and _run_owned_step in __init__.py).

    Any number of execute() calls, of any number of tools, share one depth counter. Each call is a
    coroutine and the worker threads it submits. Every critical section is one step, and cancellation
    may strike wherever the coroutine waits. */
module BandProtocol {
  /** One _band_exit(token): the decrement, then (at depth zero) the second section. */
  datatype ExitJob = Dec | Check | Over

  datatype Main =
    | AwaitBand      // awaiting the acquiring worker
    | Body           // running between steps, owner of the token
    | AwaitStep      // awaiting a step worker
    | Left           // returned or raised

  datatype Acquire =
    | NotEntered
    | Entered                       // _band_enter returned; the token is still local
    | Published(sawCancel: bool)    // the first shared section is past
    | Finished
    | Raised

  datatype Step = Idle | Busy | Ending(sawCleanup: bool)

  datatype Exec = Exec(
    main: Main,
    acquire: Acquire,
    hasToken: bool,       // _band_enter returned a pair, not None
    cancelled: bool,      // state["cancelled"]
    running: bool,        // flight["running"]
    cleanup: bool,        // flight["cleanup"] is set
    step: Step,
    jobs: seq<ExitJob>)   // one for each _band_exit of this call's token
  {
    /** state["token"] as the other side sees it. */
    predicate TokenVisible() { hasToken && (acquire.Published? || acquire.Finished?) }

    function Release(): Exec { if hasToken then this.(jobs := jobs + [Dec]) else this }

    /** 1 while this call's increment has not been undone. */
    function Weight(): int {
      if hasToken && (acquire.Entered? || acquire.Published? || acquire.Finished?)
      then (if |jobs| > 0 && jobs[0] != Dec then 0 else 1) else 0
    }

    predicate Settled() {
      && main == Left && (acquire == Finished || acquire == Raised) && step == Idle
      && (forall j :: 0 <= j < |jobs| ==> jobs[j] == Over)
    }
  }

  const NEW_EXEC := Exec(AwaitBand, NotEntered, false, false, false, false, Idle, [])

  datatype State = State(
    depth: int,
    shown: bool,
    showFailed: bool,     // some show() has failed so far
    spared: bool,         // since last hidden: raised by the disclosure itself, or left up for held input
    execs: seq<Exec>)

  const INIT := State(0, false, false, false, [])

  datatype EnterResult = NoBand | ShowWorks | ShowFailsTolerated | Refused

  datatype Label =
    | Disclose               // _ensure_announced has raised the band, before any call enters
    | Begin
    | Enter(e: nat, result: EnterResult)
    | Publish(e: nat)
    | FinishAcquire(e: nat)
    | TakeToken(e: nat)
    | CancelAcquire(e: nat)
    | StartStep(e: nat)
    | EndStep(e: nat)
    | StepCleanup(e: nat)
    | Resume(e: nat)
    | Leave(e: nat)          // execute's finally, reached normally or by cancellation
    | Decrement(e: nat, j: nat)
    | Lower(e: nat, j: nat, held: bool)
    | SessionCleanup(held: bool)

  /** The local effect of a step on its own call; None when the step is not possible. */
  function Local(x: Exec, l: Label): Exec {
    match l
    case Publish(_) =>
      if x.acquire == Entered then x.(acquire := Published(x.cancelled)) else x
    case FinishAcquire(_) =>
      if x.acquire.Published?
      then (if x.acquire.sawCancel then x.Release() else x).(acquire := Finished) else x
    case TakeToken(_) =>
      if x.main == AwaitBand && x.acquire == Finished then x.(main := Body)
      else if x.main == AwaitBand && x.acquire == Raised then x.(main := Left) else x
    case CancelAcquire(_) =>
      if x.main == AwaitBand
      then (if x.TokenVisible() then x.Release() else x).(cancelled := true, main := Left) else x
    case StartStep(_) =>
      if x.main == Body then x.(main := AwaitStep, running := true, step := Busy) else x
    case EndStep(_) =>
      if x.step == Busy then x.(running := false, step := Ending(x.cleanup)) else x
    case StepCleanup(_) =>
      if x.step.Ending? then (if x.step.sawCleanup then x.Release() else x).(step := Idle) else x
    case Resume(_) =>
      if x.main == AwaitStep && x.step == Idle then x.(main := Body) else x
    case Leave(_) =>
      if x.main != Body && x.main != AwaitStep then x
      else if x.running then x.(cleanup := true, main := Left) else x.Release().(main := Left)
    case _ => x
  }

  function EnterBand(s: State, e: nat, result: EnterResult): State
    requires e < |s.execs| && s.execs[e].acquire == NotEntered
  {
    var x := s.execs[e];
    match result
    case NoBand => s.(execs := s.execs[e := x.(acquire := Entered)])
    case Refused => s.(execs := s.execs[e := x.(acquire := Raised)])
    case ShowWorks =>
      s.(depth := s.depth + 1, shown := true, execs := s.execs[e := x.(acquire := Entered, hasToken := true)])
    case ShowFailsTolerated =>
      s.(depth := s.depth + 1, showFailed := s.showFailed || !s.shown,
         execs := s.execs[e := x.(acquire := Entered, hasToken := true)])
  }

  function Hide(s: State): State { s.(shown := false, spared := false) }

  function Apply(s: State, l: Label): State {
    match l
    case Disclose => s.(shown := true, spared := true)
    case Begin => s.(execs := s.execs + [NEW_EXEC])
    case SessionCleanup(held) => if s.depth == 0 && !held then Hide(s) else s
    case Enter(e, result) =>
      if e < |s.execs| && s.execs[e].acquire == NotEntered then EnterBand(s, e, result) else s
    case Decrement(e, j) =>
      if e < |s.execs| && j < |s.execs[e].jobs| && s.execs[e].jobs[j] == Dec then
        var d, x := s.depth - 1, s.execs[e];
        s.(depth := d, execs := s.execs[e := x.(jobs := x.jobs[j := if d != 0 then Over else Check])])
      else s
    case Lower(e, j, held) =>
      if e < |s.execs| && j < |s.execs[e].jobs| && s.execs[e].jobs[j] == Check then
        var x := s.execs[e];
        var t := s.(execs := s.execs[e := x.(jobs := x.jobs[j := Over])]);
        if s.depth != 0 then t else if held then t.(spared := true) else Hide(t)
      else s
    case _ =>
      if l.e < |s.execs| then s.(execs := s.execs[l.e := Local(s.execs[l.e], l)]) else s
  }

  function Run(labels: seq<Label>): State {
    if labels == [] then INIT else Apply(Run(labels[..|labels| - 1]), labels[|labels| - 1])
  }

  /** The number of tokens handed out and not yet given back. */
  function Outstanding(xs: seq<Exec>): int {
    if xs == [] then 0 else Outstanding(xs[..|xs| - 1]) + xs[|xs| - 1].Weight()
  }

  // ---------------------------------------------------------------- invariant

  /** Who is going to release the token. */
  ghost predicate ExecOk(x: Exec) {
    && |x.jobs| <= 1
    && (x.hasToken ==> x.acquire != NotEntered && x.acquire != Raised)
    && (!x.hasToken ==> x.jobs == [])
    && (x.cancelled ==> x.main == Left)
    && (x.acquire == NotEntered ==> x.jobs == [] && x.step == Idle && (x.main == Left ==> x.cancelled))
    && (x.running <==> x.step == Busy)
    && (x.main == AwaitBand || x.main == Body ==> x.jobs == [] && !x.cleanup)
    && (x.main == AwaitBand ==> x.step == Idle && (x.acquire.Published? ==> !x.acquire.sawCancel))
    && (x.main == Body ==> x.step == Idle && x.acquire == Finished)
    && (x.main == AwaitStep ==> x.acquire == Finished && x.jobs == [] && !x.cleanup
                                && (x.step.Ending? ==> !x.step.sawCleanup))
    && (x.main == Left && x.hasToken ==> Disposed(x))
  }

  /** After the coroutine has gone: exactly one party has released the token or is bound to. */
  ghost predicate Disposed(x: Exec) {
    if x.acquire == Entered then x.cancelled && x.jobs == [] && x.step == Idle
    else if x.acquire.Published? then (x.acquire.sawCancel <==> x.jobs == []) && x.step == Idle
    else if x.step == Busy then x.cleanup && x.jobs == []
    else if x.step.Ending? then (x.step.sawCleanup <==> x.jobs == [])
    else |x.jobs| == 1
  }

  ghost predicate Inv(s: State) {
    && (forall e :: 0 <= e < |s.execs| ==> ExecOk(s.execs[e]))
    && s.depth == Outstanding(s.execs)
    && (s.depth > 0 && !s.showFailed ==> s.shown)
  }

  lemma {:induction false} OutstandingUpdate(xs: seq<Exec>, e: nat, x: Exec)
    requires e < |xs|
    ensures Outstanding(xs[e := x]) == Outstanding(xs) - xs[e].Weight() + x.Weight()
  {
    var last := |xs| - 1;
    if e == last {
      assert xs[e := x][..last] == xs[..last];
    } else {
      assert xs[e := x][..last] == xs[..last][e := x];
      OutstandingUpdate(xs[..last], e, x);
    }
  }

  lemma {:induction false} OutstandingBounds(xs: seq<Exec>, e: nat)
    requires e < |xs|
    ensures Outstanding(xs) >= xs[e].Weight() >= 0
  {
    if e < |xs| - 1 {
      OutstandingBounds(xs[..|xs| - 1], e);
    } else if |xs| > 1 {
      OutstandingBounds(xs[..|xs| - 1], |xs| - 2);
    }
  }

  lemma {:induction false} LocalKeepsExecOk(x: Exec, l: Label)
    requires ExecOk(x)
    ensures ExecOk(Local(x, l)) && Local(x, l).Weight() == x.Weight()
  {
  }

  /** One call changes, and the depth with its weight. */
  lemma {:induction false} ExecChangeKeepsInv(s: State, e: nat, s': State)
    requires Inv(s) && e < |s.execs| && |s'.execs| == |s.execs| && s'.execs == s.execs[e := s'.execs[e]]
    requires ExecOk(s'.execs[e])
    requires s'.depth == s.depth - s.execs[e].Weight() + s'.execs[e].Weight()
    requires s'.depth > 0 && !s'.showFailed ==> s'.shown
    ensures Inv(s')
  {
    OutstandingUpdate(s.execs, e, s'.execs[e]);
  }

  lemma {:induction false} EnterKeepsInv(s: State, e: nat, result: EnterResult)
    requires Inv(s) && e < |s.execs| && s.execs[e].acquire == NotEntered
    ensures Inv(EnterBand(s, e, result))
  {
    assert ExecOk(s.execs[e]);
    OutstandingBounds(s.execs, e);
    ExecChangeKeepsInv(s, e, EnterBand(s, e, result));
  }

  lemma {:induction false} DecrementKeepsInv(s: State, l: Label)
    requires Inv(s) && l.Decrement?
    ensures Inv(Apply(s, l))
  {
    if l.e < |s.execs| && l.j < |s.execs[l.e].jobs| && s.execs[l.e].jobs[l.j] == Dec {
      assert ExecOk(s.execs[l.e]);
      OutstandingBounds(s.execs, l.e);
      ExecChangeKeepsInv(s, l.e, Apply(s, l));
    }
  }

  lemma {:induction false} LowerKeepsInv(s: State, l: Label)
    requires Inv(s) && l.Lower?
    ensures Inv(Apply(s, l))
  {
    if l.e < |s.execs| && l.j < |s.execs[l.e].jobs| && s.execs[l.e].jobs[l.j] == Check {
      assert ExecOk(s.execs[l.e]);
      ExecChangeKeepsInv(s, l.e, Apply(s, l));
    }
  }

  /** Steps of one call that touch neither the depth nor the band. */
  predicate IsLocal(l: Label) {
    !l.Disclose? && !l.Begin? && !l.SessionCleanup? && !l.Enter? && !l.Decrement? && !l.Lower?
  }

  lemma {:induction false} LocalKeepsInv(s: State, l: Label)
    requires Inv(s) && IsLocal(l) && l.e < |s.execs|
    ensures Inv(s.(execs := s.execs[l.e := Local(s.execs[l.e], l)]))
  {
    LocalKeepsExecOk(s.execs[l.e], l);
    ExecChangeKeepsInv(s, l.e, s.(execs := s.execs[l.e := Local(s.execs[l.e], l)]));
  }

  lemma {:induction false} BeginKeepsInv(s: State)
    requires Inv(s)
    ensures Inv(s.(execs := s.execs + [NEW_EXEC]))
  {
    assert (s.execs + [NEW_EXEC])[..|s.execs|] == s.execs;
  }

  lemma {:induction false} ApplyKeepsInv(s: State, l: Label)
    requires Inv(s)
    ensures Inv(Apply(s, l))
  {
    if IsLocal(l) {
      if l.e < |s.execs| { LocalKeepsInv(s, l); }
    } else if l.Begin? {
      BeginKeepsInv(s);
    } else if l.Enter? {
      if l.e < |s.execs| && s.execs[l.e].acquire == NotEntered { EnterKeepsInv(s, l.e, l.result); }
    } else if l.Decrement? {
      DecrementKeepsInv(s, l);
    } else if l.Lower? {
      LowerKeepsInv(s, l);
    }
  }

  lemma {:induction false} RunKeepsInv(labels: seq<Label>)
    ensures Inv(Run(labels))
  {
    if labels != [] {
      RunKeepsInv(labels[..|labels| - 1]);
      ApplyKeepsInv(Run(labels[..|labels| - 1]), labels[|labels| - 1]);
    }
  }

  // ---------------------------------------------------------------- what holds in every run

  /** A token is released at most once at any moment, and exactly once by the time the call and all
      its workers have finished, wherever cancellation struck. */
  lemma {:induction false} EachTokenReleasedExactlyOnce(labels: seq<Label>, e: nat)
    requires e < |Run(labels).execs|
    ensures var x := Run(labels).execs[e];
      && |x.jobs| <= 1 && (!x.hasToken ==> x.jobs == [])
      && (x.Settled() && x.hasToken ==> x.jobs == [Over])
  {
    RunKeepsInv(labels);
    assert ExecOk(Run(labels).execs[e]);
  }

  lemma {:induction false} DepthCountsOutstandingTokens(labels: seq<Label>)
    ensures Run(labels).depth == Outstanding(Run(labels).execs) >= 0
  {
    RunKeepsInv(labels);
    if Run(labels).execs != [] {
      OutstandingBounds(Run(labels).execs, 0);
    }
  }

  /** The band goes down only with no token outstanding; and unless a show() has failed it is up
      whenever one is. */
  lemma {:induction false} BandFollowsDepth(labels: seq<Label>, l: Label)
    ensures Run(labels).shown && !Apply(Run(labels), l).shown ==> Outstanding(Run(labels).execs) == 0
    ensures !Run(labels).showFailed && Outstanding(Run(labels).execs) > 0 ==> Run(labels).shown
  {
    RunKeepsInv(labels);
  }

  /** A worker that is still injecting keeps the token alive, even after its coroutine was cancelled. */
  lemma {:induction false} NoLoweringUnderARunningStep(labels: seq<Label>, e: nat)
    requires e < |Run(labels).execs|
    requires Run(labels).execs[e].step == Busy && Run(labels).execs[e].hasToken
    ensures Run(labels).depth > 0
    ensures !Run(labels).showFailed ==> Run(labels).shown
    ensures forall l :: !Run(labels).showFailed ==> Apply(Run(labels), l).shown
  {
    RunKeepsInv(labels);
    var s := Run(labels);
    assert ExecOk(s.execs[e]);
    OutstandingBounds(s.execs, e);
    forall l ensures !s.showFailed ==> Apply(s, l).shown { BandFollowsDepth(labels, l); }
  }

  /** Some call is about to look whether the band can come down. */
  ghost predicate Checking(xs: seq<Exec>) {
    exists e, j :: 0 <= e < |xs| && 0 <= j < |xs[e].jobs| && xs[e].jobs[j] == Check
  }

  /** The band is up for a reason: a call is under way, one is about to look, or it has been spared. */
  ghost predicate UpForAReason(s: State) { s.shown ==> s.depth > 0 || s.spared || Checking(s.execs) }

  lemma {:induction false} LocalKeepsChecks(s: State, e: nat, x: Exec)
    requires e < |s.execs| && Checking(s.execs)
    requires forall j :: 0 <= j < |s.execs[e].jobs| && s.execs[e].jobs[j] == Check ==>
               j < |x.jobs| && x.jobs[j] == Check
    ensures Checking(s.execs[e := x])
  {
    var d, j :| 0 <= d < |s.execs| && 0 <= j < |s.execs[d].jobs| && s.execs[d].jobs[j] == Check;
    assert s.execs[e := x][d].jobs[j] == Check;
  }

  lemma {:induction false} ExitKeepsReason(s: State, l: Label)
    requires UpForAReason(s) && (l.Decrement? || l.Lower?) && s.depth >= 0
    ensures UpForAReason(Apply(s, l))
  {
    var t := Apply(s, l);
    if l.Decrement? && t != s {
      if t.depth == 0 {
        assert t.execs[l.e].jobs[l.j] == Check;
      } else if Checking(s.execs) {
        LocalKeepsChecks(s, l.e, t.execs[l.e]);
      }
    }
  }

  lemma {:induction false} LocalKeepsReason(s: State, l: Label)
    requires UpForAReason(s) && IsLocal(l) && l.e < |s.execs|
    ensures UpForAReason(s.(execs := s.execs[l.e := Local(s.execs[l.e], l)]))
  {
    if Checking(s.execs) {
      JobsStay(s.execs[l.e], l);
      LocalKeepsChecks(s, l.e, Local(s.execs[l.e], l));
    }
  }

  lemma JobsStay(x: Exec, l: Label)
    ensures x.jobs <= Local(x, l).jobs
  {
  }

  lemma {:induction false} BeginKeepsReason(s: State)
    requires UpForAReason(s)
    ensures UpForAReason(s.(execs := s.execs + [NEW_EXEC]))
  {
    if Checking(s.execs) {
      var e, j :| 0 <= e < |s.execs| && 0 <= j < |s.execs[e].jobs| && s.execs[e].jobs[j] == Check;
      assert (s.execs + [NEW_EXEC])[e].jobs[j] == Check;
    }
  }

  lemma {:induction false} EnterKeepsReason(s: State, e: nat, result: EnterResult)
    requires UpForAReason(s) && s.depth >= 0 && e < |s.execs| && s.execs[e].acquire == NotEntered
    ensures UpForAReason(EnterBand(s, e, result))
  {
    if Checking(s.execs) { LocalKeepsChecks(s, e, EnterBand(s, e, result).execs[e]); }
  }

  lemma {:induction false} ApplyKeepsReason(s: State, l: Label)
    requires s.depth >= 0 && UpForAReason(s)
    ensures UpForAReason(Apply(s, l))
  {
    if IsLocal(l) {
      if l.e < |s.execs| { LocalKeepsReason(s, l); }
    } else if l.Begin? {
      BeginKeepsReason(s);
    } else if l.Enter? {
      if l.e < |s.execs| && s.execs[l.e].acquire == NotEntered { EnterKeepsReason(s, l.e, l.result); }
    } else if l.Decrement? || l.Lower? {
      ExitKeepsReason(s, l);
    }
  }

  lemma {:induction false} RunKeepsReason(labels: seq<Label>)
    ensures UpForAReason(Run(labels))
  {
    if labels != [] {
      DepthCountsOutstandingTokens(labels[..|labels| - 1]);
      RunKeepsReason(labels[..|labels| - 1]);
      ApplyKeepsReason(Run(labels[..|labels| - 1]), labels[|labels| - 1]);
    }
  }

  /** Nothing has raised the band or kept it up but the calls themselves. */
  ghost predicate OnlyCalls(labels: seq<Label>) {
    forall k :: 0 <= k < |labels| ==> !labels[k].Disclose? && !(labels[k].Lower? && labels[k].held)
  }

  /** The band comes down: once every call has settled it is down, unless it was raised by the disclosure
      or left up for held input and has not been hidden since. Where neither ever happened it is up only
      while a call is under way or about to look. */
  lemma {:induction false} TheBandComesDown(labels: seq<Label>)
    ensures var s := Run(labels);
      && (s.shown ==> s.depth > 0 || s.spared || Checking(s.execs))
      && ((forall e :: 0 <= e < |s.execs| ==> s.execs[e].Settled()) && !s.spared ==> s.depth == 0 && !s.shown)
      && (OnlyCalls(labels) ==> !s.spared)
  {
    RunKeepsInv(labels);
    RunKeepsReason(labels);
    OnlyCallsSpareNothing(labels);
    if forall e :: 0 <= e < |Run(labels).execs| ==> Run(labels).execs[e].Settled() { SettledCallsWeighNothing(labels); }
  }

  lemma {:induction false} OnlyCallsSpareNothing(labels: seq<Label>)
    ensures OnlyCalls(labels) ==> !Run(labels).spared
  {
    if labels != [] && OnlyCalls(labels) {
      var earlier := labels[..|labels| - 1];
      assert OnlyCalls(earlier) by { assert forall k :: 0 <= k < |earlier| ==> earlier[k] == labels[k]; }
      OnlyCallsSpareNothing(earlier);
      assert !labels[|labels| - 1].Disclose?;
    }
  }

  lemma {:induction false} SettledCallsWeighNothing(labels: seq<Label>)
    requires forall e :: 0 <= e < |Run(labels).execs| ==> Run(labels).execs[e].Settled()
    ensures Run(labels).depth == 0 && !Checking(Run(labels).execs)
  {
    RunKeepsInv(labels);
    var xs := Run(labels).execs;
    forall e | 0 <= e < |xs| ensures xs[e].Weight() == 0 { assert ExecOk(xs[e]); }
    WeightlessSum(xs);
  }

  lemma {:induction false} WeightlessSum(xs: seq<Exec>)
    requires forall e :: 0 <= e < |xs| ==> xs[e].Weight() == 0
    ensures Outstanding(xs) == 0
  {
    if xs != [] { WeightlessSum(xs[..|xs| - 1]); }
  }

  /** A call's last look, or the session's cleanup, at depth zero with nothing held takes the band down. */
  lemma {:induction false} LooksAtDepthZeroHide(labels: seq<Label>, l: Label)
    requires Run(labels).depth == 0
    ensures var s := Run(labels);
      l == SessionCleanup(false) ||
      (l.Lower? && !l.held && l.e < |s.execs| && l.j < |s.execs[l.e].jobs| && s.execs[l.e].jobs[l.j] == Check) ==>
        !Apply(s, l).shown && !Apply(s, l).spared
  {
  }

  /** While input is held nobody takes the band down; a disclosure, and an entry whose show() works, put it up. */
  lemma {:induction false} HeldInputKeepsTheBandUp(s: State, l: Label)
    ensures s.shown && ((l.Lower? && l.held) || l == SessionCleanup(true)) ==> Apply(s, l).shown
    ensures l.Disclose? || (l.Enter? && l.result == ShowWorks && Apply(s, l) != s) ==> Apply(s, l).shown
  {
  }

  /** A coroutine can be cancelled wherever it waits, and a refused one leaves without having taken part. */
  lemma {:induction false} WaitingCallsCanLeave(s: State, e: nat)
    requires e < |s.execs|
    ensures s.execs[e].main == AwaitBand ==> Apply(s, CancelAcquire(e)).execs[e].main == Left
    ensures s.execs[e].main == AwaitStep || s.execs[e].main == Body ==> Apply(s, Leave(e)).execs[e].main == Left
    ensures s.execs[e].main == AwaitBand && s.execs[e].acquire == NotEntered ==>
              var t := Apply(s, Enter(e, Refused));
              && t.depth == s.depth && !t.execs[e].hasToken == !s.execs[e].hasToken
              && Apply(t, TakeToken(e)).execs[e].main == Left
    ensures Apply(s, Begin).execs == s.execs + [NEW_EXEC]
  {
  }

  // ---------------------------------------------------------------- every call can finish

  /** The step that takes an unfinished call one step nearer to being settled, cancelled or not. */
  function NextLabel(x: Exec, e: nat): Label
    requires ExecOk(x) && !x.Settled()
  {
    if x.acquire == NotEntered then Enter(e, NoBand)
    else if x.acquire == Entered then Publish(e)
    else if x.acquire.Published? then FinishAcquire(e)
    else if x.main == AwaitBand then TakeToken(e)
    else if x.step == Busy then EndStep(e)
    else if x.step.Ending? then StepCleanup(e)
    else if x.main == AwaitStep then Resume(e)
    else if x.main == Body then Leave(e)
    else if x.jobs[0] == Dec then Decrement(e, 0)
    else Lower(e, 0, false)
  }

  function Rank(x: Exec): nat {
    (match x.acquire case NotEntered => 3 case Entered => 2 case Published(_) => 1 case _ => 0)
    + (match x.main case AwaitBand => 9 case AwaitStep => 8 case Body => 6 case Left => 3)
    + (match x.step case Busy => 5 case Ending(_) => 4 case Idle => 0)
    + (if x.jobs == [] then 3 else match x.jobs[0] case Dec => 2 case Check => 1 case Over => 0)
  }

  lemma {:induction false} UnfinishedCallsProgress(labels: seq<Label>, e: nat)
    requires e < |Run(labels).execs| && !Run(labels).execs[e].Settled()
    ensures ExecOk(Run(labels).execs[e])
    ensures var s := Run(labels);
      var s' := Apply(s, NextLabel(s.execs[e], e));
      e < |s'.execs| && Rank(s'.execs[e]) < Rank(s.execs[e])
  {
    RunKeepsInv(labels);
    NextLabelLowersRank(Run(labels), e);
  }

  lemma {:induction false} NextLabelLowersRank(s: State, e: nat)
    requires e < |s.execs| && ExecOk(s.execs[e]) && !s.execs[e].Settled()
    ensures var s' := Apply(s, NextLabel(s.execs[e], e));
      e < |s'.execs| && Rank(s'.execs[e]) < Rank(s.execs[e])
  {
    var x := s.execs[e];
    var l := NextLabel(x, e);
    if !l.Enter? && !l.Decrement? && !l.Lower? {
      LocalLowersRank(x, l, e);
    }
  }

  lemma {:induction false} LocalLowersRank(x: Exec, l: Label, e: nat)
    requires ExecOk(x) && !x.Settled() && l == NextLabel(x, e) && !l.Enter? && !l.Decrement? && !l.Lower?
    ensures Rank(Local(x, l)) < Rank(x)
  {
  }
}
