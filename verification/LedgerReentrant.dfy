/** The held-input ledger (ledger.py) once more, with callbacks that may call back into it at any depth:
    a machine that takes one step at a time, with the calls under way on a stack. The lock is re-entrant,
    so while any call is under way only code called from within it can enter the ledger. */
module LedgerReentrant {
  type Token = string

  /** One held input. `late` marks what was held from inside a call of stop; `confirmed` counts the
      callbacks that returned normally. */
  datatype Hold = Hold(token: Token, retain: bool, late: bool, released: bool, calls: nat, confirmed: nat)

  /** What is under way. Callback, Notify and Direct are code of the caller's; the others are the
      ledger's own: the loop of release_all with what it has left to do, and the end of release. */
  datatype Frame =
    | Callback(o: nat)
    | Notify
    | Direct
    | Sweep(rest: seq<nat>, thenStop: bool)
    | ResetAfter

  /** `expired` counts timers that have run out and whose thread still waits for the lock. */
  datatype State = State(
    holds: seq<Hold>, held: map<Token, nat>, stack: seq<Frame>, stopped: bool, timer: bool, expired: nat)

  const INIT := State([], map[], [], false, false, 0)

  /** What happens next. The order of a sweep is that of the dictionary, whatever it is. */
  datatype Label =
    | EnterHold(token: Token, retain: bool)
    | EnterRelease(token: Token)
    | EnterReleaseAll(order: seq<nat>)
    | EnterStop(order: seq<nat>)
    | Expire
    | Deadman(order: seq<nat>)
    | Return(ok: bool)
    | Continue

  function Top(s: State): Frame
    requires s.stack != []
  {
    s.stack[|s.stack| - 1]
  }

  function Pop(s: State): State
    requires s.stack != []
  {
    s.(stack := s.stack[..|s.stack| - 1])
  }

  function Push(s: State, f: Frame): State { s.(stack := s.stack + [f]) }

  /** The caller's code is running, or nothing is. */
  predicate CanEnter(s: State) { s.stack == [] || UserCode(Top(s)) }

  predicate UserCode(f: Frame) { f.Callback? || f.Notify? || f.Direct? }

  predicate Lists(order: seq<nat>, held: map<Token, nat>) {
    && (forall i, j :: 0 <= i < j < |order| ==> order[i] != order[j])
    && (forall o | o in order :: o in held.Values) && (forall o | o in held.Values :: o in order)
  }

  predicate Stopping(s: State) { exists i :: 0 <= i < |s.stack| && s.stack[i].Sweep? && s.stack[i].thenStop }

  /** _release_locked up to the callback. */
  function Begin(s: State, o: nat): State
    requires o < |s.holds|
  {
    var h := s.holds[o];
    Push(s.(holds := s.holds[o := h.(released := true, calls := h.calls + 1)]), Callback(o))
  }

  function DoHold(s: State, token: Token, retain: bool): State {
    var o := |s.holds|;
    if !s.stopped then
      s.(holds := s.holds + [Hold(token, retain, Stopping(s), false, 0, 0)], held := s.held[token := o], timer := true)
    else if retain then
      Begin(s.(holds := s.holds + [Hold(token, true, false, false, 0, 0)], held := s.held[token := o]), o)
    else
      Push(s.(holds := s.holds + [Hold(token, false, false, true, 1, 0)]), Direct)
  }

  function DoRelease(s: State, token: Token): State {
    if token !in s.held || s.held[token] >= |s.holds| || s.holds[s.held[token]].released then s
    else Begin(Push(s, ResetAfter), s.held[token])
  }

  function DoSweep(s: State, order: seq<nat>, thenStop: bool): State {
    if Lists(order, s.held) then Push(s, Sweep(order, thenStop)) else s
  }

  /** _release_locked from the callback on: by token, whatever is held under it now. */
  function DoReturn(s: State, ok: bool): State
    requires s.stack != []
  {
    match Top(s)
    case Callback(o) =>
      if o >= |s.holds| then s
      else
        var h := s.holds[o];
        if !ok && h.retain then Pop(s.(holds := s.holds[o := h.(released := false)]))
        else
          var g := h.(confirmed := if ok then h.confirmed + 1 else h.confirmed);
          var t := s.(holds := s.holds[o := g], held := s.held - {h.token});
          Push(Pop(t), Notify)
    case Notify => Pop(s)
    case Direct => Pop(s)
    case _ => s
  }

  function DoContinue(s: State): State
    requires s.stack != []
  {
    match Top(s)
    case Sweep(rest, thenStop) =>
      if rest == [] then (if thenStop then Pop(s).(stopped := true, timer := false) else Pop(s))
      else
        var t := Push(Pop(s), Sweep(rest[1..], thenStop));
        if rest[0] >= |s.holds| || s.holds[rest[0]].released then t else Begin(t, rest[0])
    case ResetAfter => Pop(s).(timer := s.held != map[] && !s.stopped)
    case _ => s
  }

  function Apply(s: State, l: Label): State {
    match l
    case EnterHold(token, retain) => if CanEnter(s) then DoHold(s, token, retain) else s
    case EnterRelease(token) => if CanEnter(s) then DoRelease(s, token) else s
    case EnterReleaseAll(order) => if CanEnter(s) then DoSweep(s, order, false) else s
    case EnterStop(order) => if CanEnter(s) then DoSweep(s, order, true) else s
    case Expire => if s.timer then s.(timer := false, expired := s.expired + 1) else s
    case Deadman(order) =>
      if s.stack == [] && s.expired > 0 && Lists(order, s.held)
      then DoSweep(s.(expired := s.expired - 1), order, false) else s
    case Return(ok) => if s.stack == [] then s else DoReturn(s, ok)
    case Continue => if s.stack == [] then s else DoContinue(s)
  }

  function Run(s: State, ls: seq<Label>): State {
    if ls == [] then s else Apply(Run(s, ls[..|ls| - 1]), ls[|ls| - 1])
  }

  /* The invariant. */

  ghost predicate Running(stack: seq<Frame>, o: nat) { exists i :: 0 <= i < |stack| && stack[i] == Callback(o) }

  ghost predicate HoldOk(h: Hold, running: bool) {
    && (!h.retain ==> h.calls == if h.released then 1 else 0)
    && h.confirmed <= 1
    && (h.confirmed == 1 ==> h.released && !running)
    && (running ==> h.released && h.confirmed < h.calls)
  }

  ghost predicate HoldsOk(s: State) { forall o: nat :: o < |s.holds| ==> HoldOk(s.holds[o], Running(s.stack, o)) }

  ghost predicate StackOk(s: State) {
    && (forall i :: 0 <= i < |s.stack| && s.stack[i].Callback? ==> s.stack[i].o < |s.holds|)
    && (forall i, j :: 0 <= i < j < |s.stack| && s.stack[i].Callback? ==> s.stack[i] != s.stack[j])
    && (forall i: nat, o: nat :: i < |s.stack| && s.stack[i].Sweep? && o in s.stack[i].rest ==> o < |s.holds|)
  }

  ghost predicate HeldOk(s: State) {
    forall t :: t in s.held ==> s.held[t] < |s.holds| && s.holds[s.held[t]].token == t
  }

  /** Held without custody and not yet released. */
  ghost predicate Exposed(s: State, o: nat) {
    o < |s.holds| && !s.holds[o].retain && !s.holds[o].released && o in s.held.Values
  }

  ghost predicate InSomeSweep(stack: seq<Frame>, o: nat) {
    exists i :: 0 <= i < |stack| && stack[i].Sweep? && o in stack[i].rest
  }

  /** Nothing is left without somebody to release it, but for what was held from inside a stop. */
  ghost predicate Covered(s: State, o: nat)
    requires o < |s.holds|
  {
    s.holds[o].late || (!s.stopped && (s.timer || s.expired > 0 || InSomeSweep(s.stack, o)))
  }

  ghost predicate AllCovered(s: State) {
    forall o: nat :: o < |s.holds| && Exposed(s, o) ==> Covered(s, o)
  }

  /** A sweep on behalf of stop still has before it whatever must not survive it. */
  ghost predicate StopsAreThorough(s: State) {
    forall i: nat, o: nat ::
      i < |s.stack| && s.stack[i].Sweep? && s.stack[i].thenStop && Exposed(s, o) && !s.holds[o].late ==>
        o in s.stack[i].rest
  }

  ghost predicate Inv(s: State) { StackOk(s) && HoldsOk(s) && HeldOk(s) && AllCovered(s) && StopsAreThorough(s) }

  /* Every step keeps it. */

  lemma {:induction false} PushKeeps(s: State, f: Frame)
    requires Inv(s) && !f.Callback? && !f.Sweep?
    ensures Inv(Push(s, f))
  {
    var t := Push(s, f);
    forall o: nat
      ensures Running(t.stack, o) == Running(s.stack, o) && (InSomeSweep(s.stack, o) ==> InSomeSweep(t.stack, o))
    {
      if Running(s.stack, o) {
        var i :| 0 <= i < |s.stack| && s.stack[i] == Callback(o);
        assert t.stack[i] == Callback(o);
      }
      if InSomeSweep(s.stack, o) {
        var i :| 0 <= i < |s.stack| && s.stack[i].Sweep? && o in s.stack[i].rest;
        assert t.stack[i] == s.stack[i];
      }
    }
    forall o: nat | o < |t.holds| && Exposed(t, o) ensures Covered(t, o) { assert Exposed(s, o) && Covered(s, o); }
    forall i: nat, o: nat | i < |t.stack| && t.stack[i].Sweep? && t.stack[i].thenStop &&
        Exposed(t, o) && !t.holds[o].late
      ensures o in t.stack[i].rest
    {
      assert Exposed(s, o) && t.stack[i] == s.stack[i];
    }
  }

  lemma {:induction false} PopKeeps(s: State)
    requires Inv(s) && s.stack != [] && (Top(s).Sweep? ==> Top(s).rest == [])
    ensures Inv(Pop(s))
    ensures Top(s).Callback? ==> !Running(Pop(s).stack, Top(s).o)
  {
    var t := Pop(s);
    assert forall i :: 0 <= i < |t.stack| ==> t.stack[i] == s.stack[i];
    forall o: nat ensures Running(t.stack, o) ==> Running(s.stack, o) {
      if Running(t.stack, o) {
        var i :| 0 <= i < |t.stack| && t.stack[i] == Callback(o);
        assert s.stack[i] == Callback(o);
      }
    }
    forall o: nat | o < |t.holds| ensures HoldOk(t.holds[o], Running(t.stack, o)) {
      assert HoldOk(s.holds[o], Running(s.stack, o));
    }
    forall o: nat | o < |t.holds| && Exposed(t, o) ensures Covered(t, o) {
      assert Exposed(s, o) && Covered(s, o);
      if InSomeSweep(s.stack, o) {
        var i :| 0 <= i < |s.stack| && s.stack[i].Sweep? && o in s.stack[i].rest;
        assert i < |t.stack| && t.stack[i] == s.stack[i];
      }
    }
    forall i: nat, o: nat | i < |t.stack| && t.stack[i].Sweep? && t.stack[i].thenStop &&
        Exposed(t, o) && !t.holds[o].late
      ensures o in t.stack[i].rest
    {
      assert Exposed(s, o) && t.stack[i] == s.stack[i];
    }
  }

  lemma {:induction false} BeginKeeps(s: State, o: nat)
    requires Inv(s) && o < |s.holds| && !s.holds[o].released
    ensures Inv(Begin(s, o))
  {
    var t := Begin(s, o);
    assert !Running(s.stack, o) by { assert HoldOk(s.holds[o], Running(s.stack, o)); }
    assert forall i :: 0 <= i < |s.stack| ==> t.stack[i] == s.stack[i];
    forall p: nat
      ensures Running(t.stack, p) == (p == o || Running(s.stack, p))
      ensures InSomeSweep(s.stack, p) ==> InSomeSweep(t.stack, p)
    {
      if p == o { assert t.stack[|s.stack|] == Callback(o); }
      if Running(s.stack, p) {
        var i :| 0 <= i < |s.stack| && s.stack[i] == Callback(p);
        assert t.stack[i] == Callback(p);
      }
      if InSomeSweep(s.stack, p) {
        var i :| 0 <= i < |s.stack| && s.stack[i].Sweep? && p in s.stack[i].rest;
        assert t.stack[i] == s.stack[i];
      }
    }
    forall i, j | 0 <= i < j < |t.stack| && t.stack[i].Callback? ensures t.stack[i] != t.stack[j] {
      if j == |s.stack| { assert s.stack[i] == Callback(o) ==> Running(s.stack, o); }
    }
    forall p: nat | p < |t.holds| ensures HoldOk(t.holds[p], Running(t.stack, p)) {
      assert HoldOk(s.holds[p], Running(s.stack, p));
    }
    forall p: nat | p < |t.holds| && Exposed(t, p) ensures Covered(t, p) { assert Exposed(s, p) && Covered(s, p); }
    forall i: nat, p: nat | i < |t.stack| && t.stack[i].Sweep? && t.stack[i].thenStop &&
        Exposed(t, p) && !t.holds[p].late
      ensures p in t.stack[i].rest
    {
      assert Exposed(s, p) && t.stack[i] == s.stack[i];
    }
  }

  lemma {:induction false} AddKeeps(s: State, h: Hold, register: bool)
    requires Inv(s) && HoldOk(h, false)
    requires register && !h.retain ==> !s.stopped && h.late == Stopping(s)
    ensures var o := |s.holds|;
            Inv(s.(holds := s.holds + [h], held := if register then s.held[h.token := o] else s.held,
                   timer := s.timer || (register && !s.stopped)))
  {
    var o := |s.holds|;
    var t := s.(holds := s.holds + [h], held := if register then s.held[h.token := o] else s.held,
                timer := s.timer || (register && !s.stopped));
    assert !Running(s.stack, o);
    forall p: nat | p < |t.holds| ensures HoldOk(t.holds[p], Running(t.stack, p)) {
      if p < o { assert HoldOk(s.holds[p], Running(s.stack, p)); }
    }
    assert !register ==> o !in t.held.Values;
    forall p: nat | p < |t.holds| && Exposed(t, p) ensures Covered(t, p) {
      if p < o { assert Exposed(s, p) && Covered(s, p); }
    }
    forall i: nat, p: nat | i < |t.stack| && t.stack[i].Sweep? && t.stack[i].thenStop &&
        Exposed(t, p) && !t.holds[p].late
      ensures p in t.stack[i].rest
    {
      if p < o { assert Exposed(s, p); }
    }
  }

  lemma {:induction false} HoldKeeps(s: State, token: Token, retain: bool)
    requires Inv(s)
    ensures Inv(DoHold(s, token, retain))
  {
    if !s.stopped {
      AddKeeps(s, Hold(token, retain, Stopping(s), false, 0, 0), true);
    } else if retain {
      var h := Hold(token, true, false, false, 0, 0);
      AddKeeps(s, h, true);
      BeginKeeps(s.(holds := s.holds + [h], held := s.held[token := |s.holds|]), |s.holds|);
    } else {
      var h := Hold(token, false, false, true, 1, 0);
      AddKeeps(s, h, false);
      PushKeeps(s.(holds := s.holds + [h]), Direct);
    }
  }

  /** A sweep that starts has everything held before it. */
  lemma {:induction false} SweepKeeps(s: State, expired: nat, order: seq<nat>, thenStop: bool)
    requires Inv(s) && Lists(order, s.held)
    ensures Inv(Push(s.(expired := expired), Sweep(order, thenStop)))
  {
    var t := Push(s.(expired := expired), Sweep(order, thenStop));
    assert forall i :: 0 <= i < |s.stack| ==> t.stack[i] == s.stack[i];
    forall o: nat ensures Running(t.stack, o) == Running(s.stack, o) {
      if Running(s.stack, o) {
        var i :| 0 <= i < |s.stack| && s.stack[i] == Callback(o);
        assert t.stack[i] == Callback(o);
      }
    }
    forall o: nat | o < |t.holds| ensures HoldOk(t.holds[o], Running(t.stack, o)) {
      assert HoldOk(s.holds[o], Running(s.stack, o));
    }
    assert t.stack[|s.stack|] == Sweep(order, thenStop);
    forall o: nat | o < |t.holds| && Exposed(t, o) ensures Covered(t, o) { assert Exposed(s, o) && Covered(s, o); }
    forall i: nat, o: nat | i < |t.stack| && t.stack[i].Sweep? && t.stack[i].thenStop &&
        Exposed(t, o) && !t.holds[o].late
      ensures o in t.stack[i].rest
    {
      assert Exposed(s, o);
    }
  }

  lemma {:induction false} ExpireKeeps(s: State)
    requires Inv(s)
    ensures Inv(s.(timer := false, expired := s.expired + 1))
  {
    var t := s.(timer := false, expired := s.expired + 1);
    forall o: nat | o < |t.holds| && Exposed(t, o) ensures Covered(t, o) { assert Exposed(s, o) && Covered(s, o); }
    forall i: nat, o: nat | i < |t.stack| && t.stack[i].Sweep? && t.stack[i].thenStop &&
        Exposed(t, o) && !t.holds[o].late
      ensures o in t.stack[i].rest
    {
      assert Exposed(s, o);
    }
  }

  /** Changing one hold, and letting go of tokens, where nothing becomes exposed by it. */
  lemma {:induction false} ChangeKeeps(s: State, o: nat, h: Hold, token: Token)
    requires Inv(s) && o < |s.holds| && HoldOk(h, Running(s.stack, o)) && h.token == s.holds[o].token
    requires h.retain || h.released
    ensures Inv(s.(holds := s.holds[o := h]))
    ensures Inv(s.(holds := s.holds[o := h], held := s.held - {token}))
  {
    var t, u := s.(holds := s.holds[o := h]), s.(holds := s.holds[o := h], held := s.held - {token});
    forall p: nat | p < |s.holds| ensures HoldOk(t.holds[p], Running(s.stack, p)) {
      assert HoldOk(s.holds[p], Running(s.stack, p));
    }
    forall p: nat | Exposed(t, p) || Exposed(u, p)
      ensures Exposed(s, p) && (p < |s.holds| ==> Covered(t, p) && Covered(u, p))
    {
      assert p != o && u.held.Values <= s.held.Values;
      if p < |s.holds| { assert Exposed(s, p) && Covered(s, p); }
    }
    forall i: nat, p: nat | i < |s.stack| && s.stack[i].Sweep? && s.stack[i].thenStop &&
        (Exposed(t, p) || Exposed(u, p)) && !t.holds[p].late
      ensures p in s.stack[i].rest
    {
      assert Exposed(s, p);
    }
  }

  /** What is known of a hold whose callback ends. */
  lemma {:induction false} Ending(s: State, o: nat)
    requires Inv(s) && s.stack != [] && Top(s) == Callback(o)
    ensures o < |s.holds| && s.holds[o].released && s.holds[o].confirmed == 0 && s.holds[o].calls > 0
    ensures Inv(Pop(s)) && !Running(Pop(s).stack, o)
    ensures !s.holds[o].retain ==> s.holds[o].calls == 1
  {
    PopKeeps(s);
    assert s.stack[|s.stack| - 1] == Callback(o);
    assert HoldOk(s.holds[o], Running(s.stack, o));
  }

  lemma {:induction false} FailureKeeps(s: State, o: nat)
    requires Inv(s) && s.stack != [] && Top(s) == Callback(o) && o < |s.holds| && s.holds[o].retain
    ensures Inv(Pop(s.(holds := s.holds[o := s.holds[o].(released := false)])))
  {
    Ending(s, o);
    ChangeKeeps(Pop(s), o, s.holds[o].(released := false), "");
  }

  lemma {:induction false} SuccessKeeps(s: State, o: nat, h: Hold)
    requires Inv(s) && s.stack != [] && Top(s) == Callback(o) && o < |s.holds|
    requires h == s.holds[o] || h == s.holds[o].(confirmed := s.holds[o].confirmed + 1)
    ensures Inv(Push(Pop(s.(holds := s.holds[o := h], held := s.held - {h.token})), Notify))
  {
    Ending(s, o);
    ChangeKeeps(Pop(s), o, h, h.token);
    PushKeeps(Pop(s).(holds := s.holds[o := h], held := s.held - {h.token}), Notify);
  }

  lemma {:induction false} ReturnKeeps(s: State, ok: bool)
    requires Inv(s) && s.stack != []
    ensures Inv(DoReturn(s, ok))
  {
    if Top(s).Callback? {
      var o := Top(s).o;
      Ending(s, o);
      if !ok && s.holds[o].retain {
        FailureKeeps(s, o);
      } else {
        SuccessKeeps(s, o, s.holds[o].(confirmed := if ok then s.holds[o].confirmed + 1 else s.holds[o].confirmed));
      }
    } else if UserCode(Top(s)) {
      PopKeeps(s);
    }
  }

  /** A sweep may strike off what is no longer exposed. */
  lemma {:induction false} TrimKeeps(s: State, k: nat)
    requires Inv(s) && k < |s.stack| && s.stack[k].Sweep? && s.stack[k].rest != [] && !Exposed(s, s.stack[k].rest[0])
    ensures Inv(s.(stack := s.stack[k := Sweep(s.stack[k].rest[1..], s.stack[k].thenStop)]))
  {
    var f := s.stack[k];
    var t := s.(stack := s.stack[k := Sweep(f.rest[1..], f.thenStop)]);
    assert f.rest == [f.rest[0]] + f.rest[1..];
    assert forall i :: 0 <= i < |s.stack| && i != k ==> t.stack[i] == s.stack[i];
    forall i: nat, o: nat | i < |t.stack| && t.stack[i].Sweep? && o in t.stack[i].rest ensures o < |t.holds| {
      assert s.stack[i].Sweep? && o in s.stack[i].rest;
    }
    forall o: nat ensures Running(t.stack, o) == Running(s.stack, o) {
      if Running(s.stack, o) {
        var i :| 0 <= i < |s.stack| && s.stack[i] == Callback(o);
        assert t.stack[i] == Callback(o);
      }
      if Running(t.stack, o) {
        var i :| 0 <= i < |t.stack| && t.stack[i] == Callback(o);
        assert s.stack[i] == Callback(o);
      }
    }
    forall o: nat | o < |t.holds| ensures HoldOk(t.holds[o], Running(t.stack, o)) {
      assert HoldOk(s.holds[o], Running(s.stack, o));
    }
    forall o: nat | o < |t.holds| && Exposed(t, o) ensures Covered(t, o) {
      assert Exposed(s, o) && Covered(s, o);
      if InSomeSweep(s.stack, o) {
        var i :| 0 <= i < |s.stack| && s.stack[i].Sweep? && o in s.stack[i].rest;
        assert t.stack[i].Sweep? && o in t.stack[i].rest;
      }
    }
    forall i: nat, o: nat | i < |t.stack| && t.stack[i].Sweep? && t.stack[i].thenStop &&
        Exposed(t, o) && !t.holds[o].late
      ensures o in t.stack[i].rest
    {
      assert Exposed(s, o) && s.stack[i].Sweep? && o in s.stack[i].rest;
    }
  }

  /** stop is over: what is left was held from inside it. */
  lemma {:induction false} StopEnds(s: State)
    requires Inv(s) && s.stack != [] && Top(s) == Sweep([], true)
    ensures Inv(Pop(s).(stopped := true, timer := false))
  {
    PopKeeps(s);
    var u, t := Pop(s), Pop(s).(stopped := true, timer := false);
    forall o: nat | o < |t.holds| && Exposed(t, o) ensures Covered(t, o) {
      assert Exposed(s, o) && s.stack[|s.stack| - 1] == Top(s);
    }
    assert forall o: nat :: Exposed(t, o) ==> Exposed(u, o);
  }

  lemma {:induction false} ResetKeeps(s: State)
    requires Inv(s)
    ensures Inv(s.(timer := s.held != map[] && !s.stopped))
  {
    var t := s.(timer := s.held != map[] && !s.stopped);
    forall o: nat | o < |t.holds| && Exposed(t, o) ensures Covered(t, o) { assert Exposed(s, o) && Covered(s, o); }
    forall i: nat, o: nat | i < |t.stack| && t.stack[i].Sweep? && t.stack[i].thenStop &&
        Exposed(t, o) && !t.holds[o].late
      ensures o in t.stack[i].rest
    {
      assert Exposed(s, o);
    }
  }

  lemma TrimmedStack(s: State, o: nat)
    requires s.stack != [] && Top(s).Sweep? && Top(s).rest != [] && o == Top(s).rest[0] < |s.holds|
    ensures var n := |s.stack| - 1;
            var u := if s.holds[o].released then s else Begin(s, o);
            DoContinue(s) == u.(stack := u.stack[n := Sweep(Top(s).rest[1..], Top(s).thenStop)])
  {
    var n := |s.stack| - 1;
    var f := Sweep(Top(s).rest[1..], Top(s).thenStop);
    assert s.stack[..n] + [f] == s.stack[n := f];
    assert s.stack[..n] + [f] + [Callback(o)] == (s.stack + [Callback(o)])[n := f];
  }

  lemma {:induction false} ContinueKeeps(s: State)
    requires Inv(s) && s.stack != []
    ensures Inv(DoContinue(s))
  {
    var n := |s.stack| - 1;
    match Top(s)
    case Sweep(rest, thenStop) =>
      if rest == [] {
        if thenStop { StopEnds(s); } else { PopKeeps(s); }
      } else {
        var o := rest[0];
        assert o in s.stack[n].rest;
        var u := if s.holds[o].released then s else Begin(s, o);
        if !s.holds[o].released { BeginKeeps(s, o); }
        assert u.stack[n] == s.stack[n] && u.holds[o].released;
        TrimKeeps(u, n);
        TrimmedStack(s, o);
      }
    case ResetAfter =>
      PopKeeps(s);
      ResetKeeps(Pop(s));
    case _ =>
  }

  lemma {:induction false} ApplyKeepsInv(s: State, l: Label)
    requires Inv(s)
    ensures Inv(Apply(s, l))
  {
    match l
    case EnterHold(token, retain) => HoldKeeps(s, token, retain);
    case EnterRelease(token) =>
      if token in s.held && !s.holds[s.held[token]].released {
        PushKeeps(s, ResetAfter);
        BeginKeeps(Push(s, ResetAfter), s.held[token]);
      }
    case EnterReleaseAll(order) => if Lists(order, s.held) { SweepKeeps(s, s.expired, order, false); }
    case EnterStop(order) => if Lists(order, s.held) { SweepKeeps(s, s.expired, order, true); }
    case Expire => ExpireKeeps(s);
    case Deadman(order) => if Lists(order, s.held) && s.expired > 0 { SweepKeeps(s, s.expired - 1, order, false); }
    case Return(ok) => if s.stack != [] { ReturnKeeps(s, ok); }
    case Continue => if s.stack != [] { ContinueKeeps(s); }
  }

  lemma {:induction false} RunKeepsInv(ls: seq<Label>)
    ensures Inv(Run(INIT, ls))
  {
    if ls != [] {
      RunKeepsInv(ls[..|ls| - 1]);
      ApplyKeepsInv(Run(INIT, ls[..|ls| - 1]), ls[|ls| - 1]);
    }
  }

  /** Whatever is held and being released has its callback running. */
  ghost predicate Due(s: State) {
    forall t :: t in s.held && s.held[t] < |s.holds| && s.holds[s.held[t]].released ==> Running(s.stack, s.held[t])
  }

  lemma RunningAfter(stack: seq<Frame>, f: Frame, o: nat)
    ensures Running(stack, o) ==> Running(stack + [f], o)
    ensures f == Callback(o) ==> Running(stack + [f], o)
    ensures stack != [] && stack[|stack| - 1] != Callback(o) && Running(stack, o) ==> Running(stack[..|stack| - 1], o)
  {
    if Running(stack, o) {
      var i :| 0 <= i < |stack| && stack[i] == Callback(o);
      assert (stack + [f])[i] == Callback(o);
      if i < |stack| - 1 { assert stack[..|stack| - 1][i] == Callback(o); }
    }
    assert (stack + [f])[|stack|] == f;
  }

  lemma {:induction false} BeginKeepsDue(s: State, o: nat)
    requires Due(s) && o < |s.holds|
    ensures Due(Begin(s, o))
  {
    forall t | t in s.held
      ensures Running(s.stack, s.held[t]) || s.held[t] == o ==> Running(Begin(s, o).stack, s.held[t])
    {
      RunningAfter(s.stack, Callback(o), s.held[t]);
    }
  }

  lemma {:induction false} PushKeepsDue(s: State, f: Frame)
    requires Due(s)
    ensures Due(Push(s, f))
  {
    forall t | t in s.held ensures Running(s.stack, s.held[t]) ==> Running(Push(s, f).stack, s.held[t]) {
      RunningAfter(s.stack, f, s.held[t]);
    }
  }

  lemma {:induction false} PopKeepsDue(s: State)
    requires Due(s) && s.stack != []
    requires Top(s).Callback? && Top(s).o in s.held.Values && Top(s).o < |s.holds| ==> !s.holds[Top(s).o].released
    ensures Due(Pop(s))
  {
    forall t | t in s.held
      ensures Running(s.stack, s.held[t]) && Top(s) != Callback(s.held[t]) ==> Running(Pop(s).stack, s.held[t])
    {
      RunningAfter(s.stack, Notify, s.held[t]);
    }
  }

  lemma {:induction false} FailureKeepsDue(s: State, o: nat)
    requires Inv(s) && Due(s) && s.stack != [] && Top(s) == Callback(o) && o < |s.holds|
    ensures Due(Pop(s.(holds := s.holds[o := s.holds[o].(released := false)])))
  {
    PopKeepsDue(s.(holds := s.holds[o := s.holds[o].(released := false)]));
  }

  lemma {:induction false} SuccessKeepsDue(s: State, o: nat, n: nat)
    requires Inv(s) && Due(s) && s.stack != [] && Top(s) == Callback(o) && o < |s.holds|
    ensures var t := s.(holds := s.holds[o := s.holds[o].(confirmed := n)], held := s.held - {s.holds[o].token});
            Due(Push(Pop(t), Notify))
  {
    var t := s.(holds := s.holds[o := s.holds[o].(confirmed := n)], held := s.held - {s.holds[o].token});
    assert Due(t);
    assert o !in t.held.Values;
    PopKeepsDue(t);
    PushKeepsDue(Pop(t), Notify);
  }

  lemma {:induction false} ReturnKeepsDue(s: State, ok: bool)
    requires Inv(s) && Due(s) && s.stack != []
    ensures Due(DoReturn(s, ok))
  {
    if Top(s).Callback? {
      var o := Top(s).o;
      assert s.stack[|s.stack| - 1] == Callback(o);
      if !ok && s.holds[o].retain {
        FailureKeepsDue(s, o);
      } else {
        SuccessKeepsDue(s, o, if ok then s.holds[o].confirmed + 1 else s.holds[o].confirmed);
      }
    } else if UserCode(Top(s)) {
      PopKeepsDue(s);
    }
  }

  lemma {:induction false} ContinueKeepsDue(s: State)
    requires Inv(s) && Due(s) && s.stack != []
    ensures Due(DoContinue(s))
  {
    if !UserCode(Top(s)) {
      PopKeepsDue(s);
      if Top(s).Sweep? && Top(s).rest != [] {
        var o := Top(s).rest[0];
        assert s.stack[|s.stack| - 1].Sweep? && o in s.stack[|s.stack| - 1].rest;
        var t := Push(Pop(s), Sweep(Top(s).rest[1..], Top(s).thenStop));
        PushKeepsDue(Pop(s), Sweep(Top(s).rest[1..], Top(s).thenStop));
        BeginKeepsDue(t, o);
      }
    }
  }

  lemma {:induction false} ApplyKeepsDue(s: State, l: Label)
    requires Inv(s) && Due(s)
    ensures Due(Apply(s, l))
  {
    match l
    case EnterHold(token, retain) =>
      if s.stopped && retain {
        var t := s.(holds := s.holds + [Hold(token, true, false, false, 0, 0)], held := s.held[token := |s.holds|]);
        assert Due(t);
        BeginKeepsDue(t, |s.holds|);
      } else if s.stopped {
        PushKeepsDue(s.(holds := s.holds + [Hold(token, false, false, true, 1, 0)]), Direct);
      }
    case EnterRelease(token) =>
      if token in s.held {
        PushKeepsDue(s, ResetAfter);
        BeginKeepsDue(Push(s, ResetAfter), s.held[token]);
      }
    case EnterReleaseAll(order) => PushKeepsDue(s, Sweep(order, false));
    case EnterStop(order) => PushKeepsDue(s, Sweep(order, true));
    case Expire =>
    case Deadman(order) => if s.expired > 0 { PushKeepsDue(s.(expired := s.expired - 1), Sweep(order, false)); }
    case Return(ok) => if s.stack != [] { ReturnKeepsDue(s, ok); }
    case Continue => if s.stack != [] { ContinueKeepsDue(s); }
  }

  lemma {:induction false} RunKeepsDue(ls: seq<Label>)
    ensures Due(Run(INIT, ls))
  {
    if ls != [] {
      RunKeepsInv(ls[..|ls| - 1]);
      RunKeepsDue(ls[..|ls| - 1]);
      ApplyKeepsDue(Run(INIT, ls[..|ls| - 1]), ls[|ls| - 1]);
    }
  }

  /** A stopped ledger has no timer, and what was held from inside a stop was held while it went on. */
  ghost predicate StopOk(s: State) {
    && (s.stopped ==> !s.timer)
    && forall o: nat :: o < |s.holds| && s.holds[o].late ==> s.stopped || Stopping(s)
  }

  /** A stop goes on through everything but its own end. */
  lemma {:induction false} StoppingLasts(s: State, l: Label)
    requires Stopping(s)
    ensures Stopping(Apply(s, l)) || Apply(s, l).stopped
  {
    var i :| 0 <= i < |s.stack| && s.stack[i].Sweep? && s.stack[i].thenStop;
    var t := Apply(s, l);
    if i < |s.stack| - 1 {
      assert t.stack[i] == s.stack[i];
    } else if !t.stopped {
      assert t.stack[i].Sweep? && t.stack[i].thenStop;
    }
  }

  lemma {:induction false} LateOnlyWhileStopping(s: State, l: Label, o: nat)
    requires o < |Apply(s, l).holds| && Apply(s, l).holds[o].late
    ensures (o < |s.holds| && s.holds[o].late) || (Stopping(s) && Stopping(Apply(s, l)))
  {
  }

  lemma {:induction false} TimersStop(s: State, l: Label)
    requires s.stopped ==> !s.timer
    ensures Apply(s, l).stopped ==> !Apply(s, l).timer
    ensures s.stopped ==> Apply(s, l).stopped
  {
  }

  lemma {:induction false} RunKeepsStopOk(ls: seq<Label>)
    ensures StopOk(Run(INIT, ls))
  {
    if ls != [] {
      var s, l := Run(INIT, ls[..|ls| - 1]), ls[|ls| - 1];
      RunKeepsStopOk(ls[..|ls| - 1]);
      TimersStop(s, l);
      if Stopping(s) { StoppingLasts(s, l); }
      forall o: nat | o < |Apply(s, l).holds| && Apply(s, l).holds[o].late
        ensures Apply(s, l).stopped || Stopping(Apply(s, l))
      {
        LateOnlyWhileStopping(s, l, o);
      }
    }
  }

  /* What holds in every run. */

  /** However the callbacks call back, a hold without custody has its callback run at most once, none
      has it run again after it has returned normally, and no callback runs inside itself. */
  lemma {:induction false} CallbacksRunOnce(ls: seq<Label>, o: nat)
    requires o < |Run(INIT, ls).holds|
    ensures var s := Run(INIT, ls);
            && (!s.holds[o].retain ==> s.holds[o].calls <= 1)
            && s.holds[o].confirmed <= 1
            && forall i, j :: 0 <= i < j < |s.stack| && s.stack[i] == Callback(o) ==> s.stack[j] != Callback(o)
  {
    RunKeepsInv(ls);
    var s := Run(INIT, ls);
    assert HoldOk(s.holds[o], Running(s.stack, o));
  }

  lemma {:induction false} ConfirmedIsFinal(ls: seq<Label>, l: Label, o: nat)
    requires o < |Run(INIT, ls).holds| && Run(INIT, ls).holds[o].confirmed == 1
    ensures var s, t := Run(INIT, ls), Apply(Run(INIT, ls), l);
            o < |t.holds| && t.holds[o].calls == s.holds[o].calls && t.holds[o].confirmed == 1
  {
    RunKeepsInv(ls);
    var s := Run(INIT, ls);
    assert HoldOk(s.holds[o], Running(s.stack, o));
    assert s.stack != [] ==> Top(s) == s.stack[|s.stack| - 1];
  }

  /** When no call is under way and no timer thread is waiting, whatever is still held has not been
      released; and without custody it is under the running timer of a ledger not stopped exactly when
      it was not held from inside a stop. */
  lemma {:induction false} QuietLedgersAreCoveredExactlyWhen(ls: seq<Label>, t: Token)
    ensures var s := Run(INIT, ls);
            s.stack == [] && s.expired == 0 && t in s.held ==>
              && s.held[t] < |s.holds| && !s.holds[s.held[t]].released
              && (!s.holds[s.held[t]].retain ==> ((!s.stopped && s.timer) <==> !s.holds[s.held[t]].late))
  {
    RunKeepsInv(ls);
    RunKeepsDue(ls);
    RunKeepsStopOk(ls);
    var s := Run(INIT, ls);
    if s.stack == [] && s.expired == 0 && t in s.held { QuietIsCovered(s, t); }
  }

  lemma {:induction false} QuietIsCovered(s: State, t: Token)
    requires Inv(s) && Due(s) && StopOk(s) && s.stack == [] && s.expired == 0 && t in s.held
    ensures s.held[t] < |s.holds| && !s.holds[s.held[t]].released
    ensures !s.holds[s.held[t]].retain ==> ((!s.stopped && s.timer) <==> !s.holds[s.held[t]].late)
  {
    var o := s.held[t];
    assert !Running(s.stack, o);
    if !s.holds[o].retain { assert Exposed(s, o) && Covered(s, o); }
  }

  /* What a sweep is for. */

  /** Frame d is a sweep, and it still owes hold o a callback, or it has been run more than c times. */
  ghost predicate Owed(s: State, d: nat, thenStop: bool, o: nat, c: nat) {
    && d < |s.stack| && s.stack[d].Sweep? && s.stack[d].thenStop == thenStop && o < |s.holds|
    && (s.holds[o].calls > c || (s.holds[o].calls == c && !s.holds[o].released && o in s.stack[d].rest))
  }

  /** A callback is counted when it starts, and only one that has started can have released. */
  predicate Counts(s: State, t: State, o: nat) {
    o < |s.holds| ==>
      && o < |t.holds| && t.holds[o].calls >= s.holds[o].calls
      && (t.holds[o].released ==> s.holds[o].released || t.holds[o].calls > s.holds[o].calls)
  }

  predicate KeepsFrame(s: State, t: State, d: nat) { d < |s.stack| ==> d < |t.stack| && t.stack[d] == s.stack[d] }

  lemma {:induction false} EnteringKeepsOwed(s: State, l: Label, d: nat, o: nat)
    requires !l.Return? && !l.Continue?
    ensures Counts(s, Apply(s, l), o) && KeepsFrame(s, Apply(s, l), d)
  {
  }

  lemma {:induction false} ReturningKeepsOwed(s: State, ok: bool, d: nat, o: nat)
    requires s.stack != [] && d < |s.stack| && s.stack[d].Sweep?
    ensures Counts(s, DoReturn(s, ok), o) && KeepsFrame(s, DoReturn(s, ok), d)
  {
  }

  lemma {:induction false} ContinuingKeepsOwed(s: State, d: nat, thenStop: bool, o: nat, c: nat)
    requires s.stack != [] && Owed(s, d, thenStop, o, c)
    ensures var t := DoContinue(s);
      || Owed(t, d, thenStop, o, c)
      || (|t.stack| == d && o < |t.holds| && t.holds[o].calls > c && (thenStop ==> t.stopped && !t.timer))
  {
    var t := DoContinue(s);
    if d == |s.stack| - 1 && s.stack[d].rest != [] {
      assert s.stack[d].rest == [s.stack[d].rest[0]] + s.stack[d].rest[1..];
    } else if d < |s.stack| - 1 {
      assert t.stack[d] == s.stack[d];
    }
  }

  lemma {:induction false} SweepsGoOn(s: State, l: Label, d: nat, thenStop: bool, o: nat, c: nat)
    requires Owed(s, d, thenStop, o, c)
    ensures var t := Apply(s, l);
      || Owed(t, d, thenStop, o, c)
      || (|t.stack| == d && o < |t.holds| && t.holds[o].calls > c && (thenStop ==> t.stopped && !t.timer))
  {
    if l.Continue? {
      ContinuingKeepsOwed(s, d, thenStop, o, c);
    } else if l.Return? {
      ReturningKeepsOwed(s, l.ok, d, o);
    } else {
      EnteringKeepsOwed(s, l, d, o);
    }
  }

  /** The call that pushed frame d returns with the last of the labels and not before. */
  ghost predicate ReturnsAfter(s: State, ls: seq<Label>, d: nat) {
    |Run(s, ls).stack| == d && forall k :: 0 <= k < |ls| ==> |Run(s, ls[..k]).stack| > d
  }

  lemma {:induction false} OwedUntilItReturns(
      s: State, ls: seq<Label>, k: nat, d: nat, thenStop: bool, o: nat, c: nat)
    requires Owed(s, d, thenStop, o, c) && ReturnsAfter(s, ls, d) && k < |ls|
    ensures Owed(Run(s, ls[..k]), d, thenStop, o, c)
  {
    if k > 0 {
      OwedUntilItReturns(s, ls, k - 1, d, thenStop, o, c);
      assert ls[..k][..k - 1] == ls[..k - 1];
      SweepsGoOn(Run(s, ls[..k - 1]), ls[k - 1], d, thenStop, o, c);
    }
  }

  /** Whoever starts a sweep, from wherever, and whatever the callbacks do meanwhile: when it returns, every
      input held at its start and not yet released has had its callback run, and after a stop the ledger is
      stopped and its timer off. */
  lemma {:induction false} SweepsReachWhateverIsHeld(s: State, l: Label, ls: seq<Label>, t: Token)
    requires l.EnterReleaseAll? || l.EnterStop? || l.Deadman?
    requires if l.Deadman? then s.stack == [] && s.expired > 0 else CanEnter(s)
    requires Lists(l.order, s.held) && ReturnsAfter(Apply(s, l), ls, |s.stack|)
    requires t in s.held && s.held[t] < |s.holds| && !s.holds[s.held[t]].released
    ensures var o, u := s.held[t], Run(Apply(s, l), ls);
      && o < |u.holds| && u.holds[o].calls > s.holds[o].calls
      && (l.EnterStop? ==> u.stopped && !u.timer)
  {
    var o, d := s.held[t], |s.stack|;
    var last := |ls| - 1;
    assert o in s.held.Values;
    assert Owed(Apply(s, l), d, l.EnterStop?, o, s.holds[o].calls);
    OwedUntilItReturns(Apply(s, l), ls, last, d, l.EnterStop?, o, s.holds[o].calls);
    SweepsGoOn(Run(Apply(s, l), ls[..last]), ls[last], d, l.EnterStop?, o, s.holds[o].calls);
  }

  /** A timer that runs out leads to such a sweep as soon as no call is under way. */
  lemma {:induction false} TimersLeadToASweep(s: State, order: seq<nat>)
    requires s.stack == [] && Lists(order, s.held) && (s.timer || s.expired > 0)
    ensures Apply(if s.timer then Apply(s, Expire) else s, Deadman(order)).stack == [Sweep(order, false)]
  {
  }

  /** The holds after a release: one more callback has run. */
  function Released(s: State, o: nat, ok: bool, kept: bool): seq<Hold>
    requires o < |s.holds|
  {
    s.holds[o := s.holds[o].(released := !kept, calls := s.holds[o].calls + 1, confirmed := if ok then 1 else 0)]
  }

  /** While a call is under way no timer thread gets in, and while it is the ledger's own code that runs,
      nobody does. */
  lemma {:induction false} TheLockKeepsOthersOut(s: State, l: Label)
    requires s.stack != []
    ensures l.Deadman? ==> Apply(s, l) == s
    ensures (l.EnterHold? || l.EnterRelease? || l.EnterReleaseAll? || l.EnterStop?) && !UserCode(Top(s)) ==>
              Apply(s, l) == s
  {
  }

  /** A release that nothing interrupts, from the call to its return: the one callback, the token gone unless
      a retained hold's callback failed, and a timer for the rest, if there is a rest and no stop. */
  lemma {:induction false} UndisturbedReleases(ls: seq<Label>, token: Token, ok: bool)
    requires Run(INIT, ls).stack == [] && token in Run(INIT, ls).held
    ensures var s := Run(INIT, ls);
      var o := s.held[token];
      && o < |s.holds|
      && var kept := !ok && s.holds[o].retain;
      var t := Apply(Apply(s, EnterRelease(token)), Return(ok));
      var u := Apply(if kept then t else Apply(t, Return(true)), Continue);
      && u.stack == [] && u.held == (if kept then s.held else s.held - {token}) && u.stopped == s.stopped
      && (u.timer <==> u.held != map[] && !s.stopped) && u.holds == Released(s, o, ok, kept)
  {
    RunKeepsInv(ls);
    RunKeepsDue(ls);
    HeldWhenQuiet(Run(INIT, ls), token);
    ReleaseStepByStep(Run(INIT, ls), token, ok);
  }

  lemma {:induction false} HeldWhenQuiet(s: State, token: Token)
    requires Inv(s) && Due(s) && s.stack == [] && token in s.held
    ensures var o := s.held[token];
      o < |s.holds| && s.holds[o].token == token && s.holds[o].confirmed == 0 && !s.holds[o].released
  {
    var o := s.held[token];
    assert !Running(s.stack, o) && HoldOk(s.holds[o], Running(s.stack, o));
  }

  lemma {:induction false} ReleaseStepByStep(s: State, token: Token, ok: bool)
    requires s.stack == [] && token in s.held && s.held[token] < |s.holds|
    requires var h := s.holds[s.held[token]]; h.token == token && h.confirmed == 0 && !h.released
    ensures var o := s.held[token];
      var kept := !ok && s.holds[o].retain;
      var t := Apply(Apply(s, EnterRelease(token)), Return(ok));
      var u := Apply(if kept then t else Apply(t, Return(true)), Continue);
      && u.stack == [] && u.held == (if kept then s.held else s.held - {token}) && u.stopped == s.stopped
      && (u.timer <==> u.held != map[] && !s.stopped) && u.holds == Released(s, o, ok, kept)
  {
    var o := s.held[token];
    ReleaseBegins(s, token, o);
    CallbackEnds(s, o, ok, Apply(s, EnterRelease(token)));
    ReleaseEnds(Apply(Apply(s, EnterRelease(token)), Return(ok)));
  }

  lemma {:induction false} ReleaseEnds(t: State)
    requires t.stack == [ResetAfter] || t.stack == [ResetAfter, Notify]
    ensures Apply(if t.stack == [ResetAfter] then t else Apply(t, Return(true)), Continue) ==
            t.(stack := [], timer := t.held != map[] && !t.stopped)
  {
    assert [ResetAfter, Notify][..1] == [ResetAfter] && [ResetAfter][..0] == [];
  }

  lemma {:induction false} ReleaseBegins(s: State, token: Token, o: nat)
    requires s.stack == [] && token in s.held && s.held[token] == o && o < |s.holds| && !s.holds[o].released
    ensures Apply(s, EnterRelease(token)) ==
            s.(stack := [ResetAfter, Callback(o)],
               holds := s.holds[o := s.holds[o].(released := true, calls := s.holds[o].calls + 1)])
  {
    assert Begin(Push(s, ResetAfter), o).stack == [ResetAfter, Callback(o)];
  }

  lemma {:induction false} CallbackEnds(s: State, o: nat, ok: bool, r: State)
    requires o < |s.holds| && s.holds[o].confirmed == 0
    requires r == s.(stack := [ResetAfter, Callback(o)],
                     holds := s.holds[o := s.holds[o].(released := true, calls := s.holds[o].calls + 1)])
    ensures var kept := !ok && s.holds[o].retain;
      Apply(r, Return(ok)) ==
      s.(stack := if kept then [ResetAfter] else [ResetAfter, Notify], holds := Released(s, o, ok, kept),
         held := if kept then s.held else s.held - {s.holds[o].token})
  {
    assert r.stack[..1] == [ResetAfter] && [ResetAfter] + [Notify] == [ResetAfter, Notify];
  }

  /* The two ways in which a call back into the ledger leaves an input held that nobody will release. */

  /** A callback run by stop holds another input: stop does not see it, and the ledger is then stopped
      with no timer and the input held. */
  lemma {:induction false} HeldFromInsideAStopIsStuck(a: Token, b: Token)
    requires a != b
    ensures var ls := [EnterHold(a, false), EnterStop([0]), Continue, EnterHold(b, false),
                       Return(true), Return(true), Continue];
            var s := Run(INIT, ls);
            s.stack == [] && s.stopped && !s.timer && s.held == map[b := 1]
            && |s.holds| == 2 && !s.holds[1].released && s.holds[1].calls == 0
  {
    var l1 := [EnterHold(a, false)];
    var s1 := State([Hold(a, false, false, false, 0, 0)], map[a := 0], [], false, true, 0);
    assert l1 == [] + [EnterHold(a, false)];
    Snoc([], EnterHold(a, false));
    assert Run(INIT, l1) == s1;
    var s2 := s1.(stack := [Sweep([0], true)]);
    Snoc(l1, EnterStop([0]));
    assert Lists([0], s1.held) by { assert s1.held[a] == 0; }
    assert Apply(s1, EnterStop([0])) == s2;
    var l3 := l1 + [EnterStop([0])] + [Continue];
    var s3 := s1.(holds := [Hold(a, false, false, true, 1, 0)], stack := [Sweep([], true), Callback(0)]);
    Snoc(l1 + [EnterStop([0])], Continue);
    StopSweepsTheFirst(a);
    assert Run(INIT, l3) == s3;
    Snoc(l3, EnterHold(b, false));
    AnotherIsHeld(a, b, s3);
    var s4 := Apply(s3, EnterHold(b, false));
    var l4 := l3 + [EnterHold(b, false)];
    Snoc(l4, Return(true));
    Snoc(l4 + [Return(true)], Return(true));
    Snoc(l4 + [Return(true)] + [Return(true)], Continue);
    TheStopEnds(a, b, s4);
    assert l4 + [Return(true)] + [Return(true)] + [Continue] ==
      [EnterHold(a, false), EnterStop([0]), Continue, EnterHold(b, false), Return(true), Return(true), Continue];
  }

  lemma Snoc(ls: seq<Label>, l: Label)
    ensures Run(INIT, ls + [l]) == Apply(Run(INIT, ls), l)
  {
    assert (ls + [l])[..|ls|] == ls;
  }

  lemma StopSweepsTheFirst(a: Token)
    ensures var s := State([Hold(a, false, false, false, 0, 0)], map[a := 0], [Sweep([0], true)], false, true, 0);
            Apply(s, Continue) ==
              s.(holds := [Hold(a, false, false, true, 1, 0)], stack := [Sweep([], true), Callback(0)])
  {
    var s := State([Hold(a, false, false, false, 0, 0)], map[a := 0], [Sweep([0], true)], false, true, 0);
    var t := Push(Pop(s), Sweep([0][1..], true));
    assert [0][1..] == [] && t.stack == [Sweep([], true)];
    assert DoContinue(s) == Begin(t, 0);
  }

  lemma AnotherIsHeld(a: Token, b: Token, s: State)
    requires a != b && s.holds == [Hold(a, false, false, true, 1, 0)] && s.held == map[a := 0]
    requires s.stack == [Sweep([], true), Callback(0)] && !s.stopped && s.timer
    ensures Apply(s, EnterHold(b, false)) ==
            s.(holds := [Hold(a, false, false, true, 1, 0), Hold(b, false, true, false, 0, 0)],
               held := map[a := 0, b := 1])
  {
    assert Stopping(s) by { assert s.stack[0] == Sweep([], true); }
  }

  lemma TheStopEnds(a: Token, b: Token, s: State)
    requires a != b && s.holds == [Hold(a, false, false, true, 1, 0), Hold(b, false, true, false, 0, 0)]
    requires s.held == map[a := 0, b := 1] && s.stack == [Sweep([], true), Callback(0)]
    ensures var t := Apply(Apply(Apply(s, Return(true)), Return(true)), Continue);
            && t.stack == [] && t.stopped && !t.timer && t.held == map[b := 1]
            && |t.holds| == 2 && !t.holds[1].released && t.holds[1].calls == 0
  {
    var t := Apply(s, Return(true));
    assert t.stack == [Sweep([], true), Notify] && t.held == map[b := 1] && t.holds[1] == s.holds[1];
    var u := Apply(t, Return(true));
    assert u.stack == [Sweep([], true)];
  }

  /** A hold that has not been released leaves the dictionary exactly when another one of its token is
      released in its place, or takes its place. */
  lemma {:induction false} HoldsVanishExactlyBy(ls: seq<Label>, l: Label, o: nat)
    requires var s := Run(INIT, ls); o < |s.holds| && o in s.held.Values && !s.holds[o].released
    ensures var s, t := Run(INIT, ls), Apply(Run(INIT, ls), l);
            o < |t.holds| && (o !in t.held.Values <==> Supplants(s, l, s.holds[o].token) || PopsAway(s, l, o))
  {
    RunKeepsInv(ls);
    Vanishes(Run(INIT, ls), l, o);
  }

  /** A new hold of the token is registered. */
  predicate Supplants(s: State, l: Label, token: Token) {
    l.EnterHold? && CanEnter(s) && l.token == token && (!s.stopped || l.retain)
  }

  /** The callback of a different hold of the same token ends, and that hold is not kept. */
  predicate PopsAway(s: State, l: Label, o: nat)
    requires o < |s.holds|
  {
    && l.Return? && s.stack != [] && Top(s).Callback? && Top(s).o < |s.holds| && Top(s).o != o
    && s.holds[Top(s).o].token == s.holds[o].token && (l.ok || !s.holds[Top(s).o].retain)
  }

  lemma {:induction false} Vanishes(s: State, l: Label, o: nat)
    requires Inv(s) && o < |s.holds| && o in s.held.Values && !s.holds[o].released
    ensures var t := Apply(s, l);
            o < |t.holds| && (o !in t.held.Values <==> Supplants(s, l, s.holds[o].token) || PopsAway(s, l, o))
  {
    var token := s.holds[o].token;
    assert token in s.held && s.held[token] == o;
    if l.Return? && s.stack != [] {
      ReturnVanishes(s, l.ok, o);
    } else if l.Continue? && s.stack != [] {
      assert DoContinue(s).held == s.held;
    } else if l.EnterHold? && CanEnter(s) {
      HoldVanishes(s, l, o);
    } else {
      assert Apply(s, l).held == s.held;
    }
  }

  lemma {:induction false} HoldVanishes(s: State, l: Label, o: nat)
    requires Inv(s) && l.EnterHold? && CanEnter(s) && o < |s.holds| && o in s.held.Values && !s.holds[o].released
    ensures var t := DoHold(s, l.token, l.retain);
            o < |t.holds| && (o !in t.held.Values <==> Supplants(s, l, s.holds[o].token))
  {
    var t := DoHold(s, l.token, l.retain);
    var token := s.holds[o].token;
    assert token in s.held && s.held[token] == o;
    assert t.held == if Supplants(s, l, l.token) then s.held[l.token := |s.holds|] else s.held;
    if l.token == token && o in t.held.Values {
      var x :| x in t.held && t.held[x] == o;
      assert x in s.held ==> s.holds[s.held[x]].token == x;
    }
    if l.token != token { assert token in t.held && t.held[token] == o; }
  }

  lemma {:induction false} ReturnVanishes(s: State, ok: bool, o: nat)
    requires Inv(s) && s.stack != [] && o < |s.holds| && o in s.held.Values && !s.holds[o].released
    ensures o < |DoReturn(s, ok).holds| && (o !in DoReturn(s, ok).held.Values <==> PopsAway(s, Return(ok), o))
  {
    var t := DoReturn(s, ok);
    var token := s.holds[o].token;
    assert token in s.held && s.held[token] == o;
    if Top(s).Callback? {
      var p := Top(s).o;
      assert s.stack[|s.stack| - 1] == Callback(p);
      assert HoldOk(s.holds[p], Running(s.stack, p)) && p != o;
      if t.held != s.held {
        assert t.held == s.held - {s.holds[p].token};
        if s.holds[p].token != token { assert token in t.held && t.held[token] == o; }
      }
    }
  }

  /** A callback that holds its own token again: the new hold goes with the end of the old one, and its
      callback has never run. */
  lemma {:induction false} HeldAgainFromItsOwnCallbackIsLost(a: Token)
    ensures var s := Run(INIT, [EnterHold(a, false), EnterRelease(a), EnterHold(a, false)]);
            && |s.holds| == 2 && a in s.held && s.held[a] == 1 && PopsAway(s, Return(true), 1)
            && var t := Apply(s, Return(true));
               t.held == map[] && |t.holds| == 2 && !t.holds[1].released && t.holds[1].calls == 0
  {
    var l1 := [EnterHold(a, false)];
    assert l1 == [] + [EnterHold(a, false)];
    Snoc([], EnterHold(a, false));
    Snoc(l1, EnterRelease(a));
    Snoc(l1 + [EnterRelease(a)], EnterHold(a, false));
    assert l1 + [EnterRelease(a)] + [EnterHold(a, false)] ==
           [EnterHold(a, false), EnterRelease(a), EnterHold(a, false)];
    ReleasedOnce(a);
    HeldAgain(a);
  }

  function ReleasingA(a: Token): State {
    State([Hold(a, false, false, true, 1, 0)], map[a := 0], [ResetAfter, Callback(0)], false, true, 0)
  }

  lemma ReleasedOnce(a: Token)
    ensures Apply(Apply(INIT, EnterHold(a, false)), EnterRelease(a)) == ReleasingA(a)
  {
    var s := State([Hold(a, false, false, false, 0, 0)], map[a := 0], [], false, true, 0);
    assert Apply(INIT, EnterHold(a, false)) == s;
    assert Begin(Push(s, ResetAfter), 0).stack == [ResetAfter, Callback(0)];
  }

  lemma HeldAgain(a: Token)
    ensures var s := Apply(ReleasingA(a), EnterHold(a, false));
            && |s.holds| == 2 && a in s.held && s.held[a] == 1 && PopsAway(s, Return(true), 1)
            && var t := Apply(s, Return(true));
               t.held == map[] && |t.holds| == 2 && !t.holds[1].released && t.holds[1].calls == 0
  {
    var s := Apply(ReleasingA(a), EnterHold(a, false));
    assert s.holds == [Hold(a, false, false, true, 1, 0), Hold(a, false, false, false, 0, 0)];
    assert s.held == map[a := 1] && s.stack[1] == Callback(0);
    assert s.held - {a} == map[];
  }
}
