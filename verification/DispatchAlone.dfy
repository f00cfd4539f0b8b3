/** One request with the tool to itself, from its arrival to its backend call; and the request whose binding
    is replaced under it. */
module DispatchAlone {
  import opened Wrappers
  import opened Dispatch

  /** The tool as it was built, but for its approval callback and one request. */
  function With(readOnly: bool, gated: bool, callback: Callback, q: Request): State {
    Init(readOnly, gated).(approval := Some(callback), requests := [q])
  }

  function Arrived(readOnly: bool, gated: bool, mutating: bool, callback: Callback): State {
    Apply(Apply(Init(readOnly, gated), Arrive(mutating)), SetApproval(Some(callback)))
  }

  function Prepared(s: State, allowed: bool): State {
    Apply(Apply(Apply(Apply(s, Pin(0)), Ask(0)), Answer(0, allowed)), Confirm(0))
  }

  function Showing(s: State, handle: nat, consent: bool): State {
    Apply(Apply(Apply(Apply(Apply(s, Announce(0)), AnnounceLocked(0)), Built(0, handle, consent)), Settle(0)), Repin(0))
  }

  function Stepping(s: State, live: bool, writes: bool): State {
    Apply(Apply(Apply(s, EnterBand(0, live)), Queue(0, writes)), Dispatch(0))
  }

  /** The policy lets it: nothing is written, or writing is neither forbidden nor refused by the operator. */
  predicate Lets(readOnly: bool, gated: bool, mutating: bool, allowed: bool) {
    mutating ==> !readOnly && (gated ==> allowed)
  }

  lemma {:induction false} PinnedAndAsked(readOnly: bool, gated: bool, mutating: bool, callback: Callback)
    ensures var b := InitialBinding(readOnly, gated);
      var q := Request(Pinned, mutating, false, None, b, b, None);
      Apply(Apply(Arrived(readOnly, gated, mutating, callback), Pin(0)), Ask(0)) ==
      With(readOnly, gated, callback,
           q.(phase := if !mutating then Approved else if readOnly then Stopped
                       else if gated then Asking(callback) else Approved))
  {
    var b := InitialBinding(readOnly, gated);
    var s := Arrived(readOnly, gated, mutating, callback);
    assert s == With(readOnly, gated, callback, Request(Fresh, mutating, false, None, b, b, None));
    var t := Apply(s, Pin(0));
    assert t == With(readOnly, gated, callback, Request(Pinned, mutating, false, None, b, b, None));
  }

  lemma {:induction false} PreparedExactlyWhen(
      readOnly: bool, gated: bool, mutating: bool, callback: Callback, allowed: bool)
    ensures var b := InitialBinding(readOnly, gated);
      var s := Prepared(Arrived(readOnly, gated, mutating, callback), allowed);
      && |s.requests| == 1
      && s == With(readOnly, gated, callback, s.requests[0])
      && if Lets(readOnly, gated, mutating, allowed)
         then s.requests[0] == Request(Confirmed, mutating, false, None, b, b,
                                       if mutating && gated then Some(callback) else None)
         else s.requests[0].phase == Stopped
  {
    PinnedAndAsked(readOnly, gated, mutating, callback);
    var s := Apply(Apply(Arrived(readOnly, gated, mutating, callback), Pin(0)), Ask(0));
    var t := Apply(s, Answer(0, allowed));
    assert t == With(readOnly, gated, callback, t.requests[0]);
  }

  lemma {:induction false} ShownExactlyWhen(s: State, handle: nat, consent: bool)
    requires |s.requests| == 1 && s.lock == Free && !s.cleanupStarted
    requires s.requests[0].phase == Confirmed && s.requests[0].pinned == s.current
    requires !s.current.announced && !s.current.refused
    ensures var t := Showing(s, handle, consent);
      && |t.requests| == 1 && t.lock == Free && t.approval == s.approval && t.cleanupStarted == s.cleanupStarted
      && (if consent
          then t.requests[0] == s.requests[0].(phase := Ready, pinned := t.current)
               && t.current == s.current.(id := t.current.id, announcement := handle, announced := true)
          else t.requests[0].phase == Stopped && t.current.refused && s.current.backend in t.closed)
  {
    DisclosureIsBuilt(s);
    var t := s.(requests := [s.requests[0].(phase := Building)], lock := ByRequest(0));
    if consent {
      ConsentGiven(t, handle);
      var u := Apply(Apply(t, Built(0, handle, true)), Settle(0));
      Repinned(u);
    } else {
      ConsentRefused(t, handle);
      StoppedDoesNothing(Apply(Apply(t, Built(0, handle, false)), Settle(0)), Repin(0));
    }
  }

  lemma {:induction false} DisclosureIsBuilt(s: State)
    requires |s.requests| == 1 && s.lock == Free && !s.cleanupStarted
    requires s.requests[0].phase == Confirmed && !s.current.announced && !s.current.refused
    ensures Apply(Apply(s, Announce(0)), AnnounceLocked(0)) ==
            s.(requests := [s.requests[0].(phase := Building)], lock := ByRequest(0))
  {
    assert Apply(s, Announce(0)) == s.(requests := [s.requests[0].(phase := WantsLock)]);
  }

  lemma {:induction false} ConsentGiven(s: State, handle: nat)
    requires |s.requests| == 1 && s.requests[0].phase == Building
    ensures var u := Apply(Apply(s, Built(0, handle, true)), Settle(0));
      && u == s.(requests := [s.requests[0].(phase := Announced)], lock := Free,
                 current := u.current, nextId := u.nextId)
      && u.current == s.current.(id := u.current.id, announcement := handle, announced := true)
  {
    var t := Apply(s, Built(0, handle, true));
    assert t == Install(s.(requests := [s.requests[0].(phase := Handled)]), s.current.(announcement := handle));
  }

  lemma {:induction false} ConsentRefused(s: State, handle: nat)
    requires |s.requests| == 1 && s.requests[0].phase == Building
    ensures var u := Apply(Apply(s, Built(0, handle, false)), Settle(0));
      && |u.requests| == 1 && u.requests[0].phase == Stopped && u.current.refused && s.current.backend in u.closed
      && u.lock == Free && u.approval == s.approval && u.cleanupStarted == s.cleanupStarted
  {
    var t := Apply(s, Built(0, handle, false));
    assert t == Install(s.(requests := [s.requests[0].(phase := Refusing)]), s.current.(refused := true));
  }

  lemma {:induction false} Repinned(s: State)
    requires |s.requests| == 1 && s.requests[0].phase == Announced && s.current.announced
    requires !s.requests[0].pinned.announced && s.current.SameButForDisclosure(s.requests[0].pinned)
    ensures Apply(s, Repin(0)) == s.(requests := [s.requests[0].(phase := Ready, pinned := s.current)])
  {
  }

  lemma {:induction false} StoppedDoesNothing(s: State, l: Label)
    requires |s.requests| == 1 && s.requests[0].phase == Stopped && (IsPrepare(l) || IsLocked(l) || l.EnterBand?)
    requires l.r == 0 && !l.Pin?
    ensures Apply(s, l) == s
  {
  }

  lemma {:induction false} StartsWhenReady(s: State, live: bool, writes: bool)
    requires |s.requests| == 1 && s.lock == Free && !s.cleanupStarted
    requires s.requests[0].phase == Ready && s.requests[0].pinned == s.current
    requires s.requests[0].mutating ==>
      !s.current.readOnly && (s.current.gated ==> s.approval.Some? && s.approval == s.requests[0].approved)
    ensures var t := Stepping(s, live, writes);
      && |t.requests| == 1 && t.requests[0].phase == InCall && t.current == s.current
      && t.requests[0].writes == (s.requests[0].mutating && writes)
  {
  }

  lemma {:induction false} StoppedStays(s: State, handle: nat, consent: bool, live: bool, writes: bool)
    requires |s.requests| == 1 && s.requests[0].phase == Stopped
    ensures Showing(s, handle, consent) == s && Stepping(s, live, writes) == s
  {
    StoppedDoesNothing(s, Announce(0));
    StoppedDoesNothing(s, AnnounceLocked(0));
    StoppedDoesNothing(s, Built(0, handle, consent));
    StoppedDoesNothing(s, Settle(0));
    StoppedDoesNothing(s, Repin(0));
    StoppedDoesNothing(s, EnterBand(0, live));
    StoppedDoesNothing(s, Queue(0, writes));
    StoppedDoesNothing(s, Label.Dispatch(0));
  }

  /** A request that nobody disturbs gets to its backend call if and only if the operator consents to being
      disclosed to and, where it writes, the binding is not read-only and the operator, where asked, said
      yes. It then runs on the first backend, and the call counts as a write only if the request does. */
  lemma {:induction false} ARequestAloneRunsExactlyWhen(
      readOnly: bool, gated: bool, mutating: bool, callback: Callback, allowed: bool,
      handle: nat, consent: bool, live: bool, writes: bool)
    ensures var s := Prepared(Arrived(readOnly, gated, mutating, callback), allowed);
      var t := Stepping(Showing(s, handle, consent), live, writes);
      && |t.requests| == 1
      && (t.requests[0].phase == InCall <==> consent && (mutating ==> !readOnly && (gated ==> allowed)))
      && (t.requests[0].phase == InCall ==>
            && t.current.backend == 0 && t.current.announced && t.current.announcement == handle
            && t.requests[0].writes == (mutating && writes))
      && (t.requests[0].phase != InCall ==> t.requests[0].phase == Stopped)
  {
    PreparedExactlyWhen(readOnly, gated, mutating, callback, allowed);
    var s := Prepared(Arrived(readOnly, gated, mutating, callback), allowed);
    if s.requests[0].phase == Stopped {
      StoppedStays(s, handle, consent, live, writes);
    } else {
      ShownExactlyWhen(s, handle, consent);
      var u := Showing(s, handle, consent);
      if consent {
        StartsWhenReady(u, live, writes);
      } else {
        StoppedStays(u, handle, consent, live, writes);
      }
    }
  }

  /** Another object than the one pinned, and not merely a stage of its disclosure: some of its content differs,
      or nothing does. */
  predicate Replaced(pinned: Binding, current: Binding) {
    current.id != pinned.id
    && (|| current.backend != pinned.backend || current.channel != pinned.channel || current.target != pinned.target
        || current.readOnly != pinned.readOnly || current.gated != pinned.gated
        || (current.announcement == pinned.announcement && current.announced == pinned.announced))
  }

  /** The checks of a request find exactly this: in every run, it is stopped at its next check if and only if
      its binding has been replaced or the operator has refused the disclosure since; and at the answer also
      if the operator says no or the question has become void. */
  lemma {:induction false} ReplacedBindingsStopRequests(
      readOnly: bool, gated: bool, labels: seq<Label>, r: nat, allowed: bool)
    requires r < |Run(Init(readOnly, gated), labels).requests|
    ensures var s := Run(Init(readOnly, gated), labels);
      var q := s.requests[r];
      var stopped := Replaced(q.pinned, s.current) || s.current.refused != q.pinned.refused;
      && (q.phase.Asking? ==>
            Apply(s, Answer(r, allowed)).requests[r].phase ==
            if stopped || !allowed || s.approval != Some(q.phase.callback) then Stopped else Approved)
      && (q.phase == Approved ==>
            Apply(s, Confirm(r)).requests[r].phase == if stopped then Stopped else Confirmed)
      && (q.phase == Announced ==>
            Apply(s, Repin(r)).requests[r].phase == if stopped then Stopped else Ready)
  {
    RunKeepsInv(readOnly, gated, labels);
    var s := Run(Init(readOnly, gated), labels);
    assert RequestOk(s, r);
    ChecksFind(s, r, allowed);
  }

  lemma {:induction false} ChecksFind(s: State, r: nat, allowed: bool)
    requires r < |s.requests|
    ensures var q := s.requests[r];
      && (q.phase.Asking? ==>
            Apply(s, Answer(r, allowed)).requests[r].phase ==
            if !Disclosed(s, q.pinned) || !allowed || s.approval != Some(q.phase.callback) then Stopped else Approved)
      && (q.phase == Approved ==>
            Apply(s, Confirm(r)).requests[r].phase == if !Disclosed(s, q.pinned) then Stopped else Confirmed)
      && (q.phase == Announced ==>
            Apply(s, Repin(r)).requests[r].phase == if !Disclosed(s, q.pinned) then Stopped else Ready)
  {
  }

  /** Whatever a request is about to do next, a cleanup that has started stops it there; a disclosure the
      operator refused stops it before anything is shown; a question is void when the callback it went to
      has been replaced. */
  lemma {:induction false} StopsAreImmediate(s: State, r: nat, allowed: bool, live: bool)
    requires r < |s.requests|
    ensures var p := s.requests[r].phase;
      && (s.cleanupStarted && p == Fresh ==> Apply(s, Pin(r)).requests[r].phase == Stopped)
      && ((s.cleanupStarted || s.current.refused) && p == Confirmed ==>
            Apply(s, Announce(r)).requests[r].phase == Stopped)
      && ((s.cleanupStarted || s.current.refused) && p == WantsLock && s.lock == Free ==>
            Apply(s, AnnounceLocked(r)).requests[r].phase == Stopped)
      && (s.cleanupStarted && p == Ready && s.lock == Free ==>
            Apply(s, EnterBand(r, live)).requests[r].phase == Stopped)
      && (s.cleanupStarted && p == Checking ==> Apply(s, Label.Dispatch(r)).requests[r].phase == Stopped)
      && (p.Asking? && s.approval != Some(p.callback) ==> Apply(s, Answer(r, allowed)).requests[r].phase == Stopped)
  {
  }

  /** A retarget of an idle channel with no input held on it goes through, to another channel: the new binding
      is in force, on the backend built for it, and the old backend closed. One whose backend cannot be built
      changes nothing but that the attempt is closed. Either way the lock is free again. */
  lemma {:induction false} IdleRetargetsGoThrough(
      s: State, channel: Channel, target: nat, readOnly: bool, gated: bool, handle: nat)
    requires s.lock == Free && !s.cleanupStarted && Of(s.depth, s.current.channel) == 0 && channel != s.current.channel
    ensures var t := Apply(Apply(s, RetargetLock), RetargetCheck(false));
      && t == s.(lock := Retargeting)
      && var u := Apply(Apply(t, RetargetSwap(channel, target, readOnly, gated, handle)), RetargetCloseOld);
      && u.lock == Free && u.requests == s.requests && u.depth == s.depth && u.closed == s.closed + {s.current.backend}
      && u.current == Binding(u.current.id, s.nextBackend, channel, target, readOnly, gated, true, handle, false)
      && Apply(t, RetargetFails) == s.(closed := s.closed + {s.nextBackend}, nextBackend := s.nextBackend + 1)
  {
    RetargetStarts(s);
    RetargetEnds(s.(lock := Retargeting), channel, target, readOnly, gated, handle);
  }

  lemma {:induction false} RetargetStarts(s: State)
    requires s.lock == Free && !s.cleanupStarted && Of(s.depth, s.current.channel) == 0
    ensures Apply(Apply(s, RetargetLock), RetargetCheck(false)) == s.(lock := Retargeting)
  {
    assert Apply(s, RetargetLock) == s.(lock := RetargetAsked);
  }

  lemma {:induction false} RetargetEnds(
      t: State, channel: Channel, target: nat, readOnly: bool, gated: bool, handle: nat)
    requires t.lock == Retargeting && !t.cleanupStarted && channel != t.current.channel
    ensures var u := Apply(Apply(t, RetargetSwap(channel, target, readOnly, gated, handle)), RetargetCloseOld);
      && u.lock == Free && u.requests == t.requests && u.depth == t.depth && u.closed == t.closed + {t.current.backend}
      && u.current == Binding(u.current.id, t.nextBackend, channel, target, readOnly, gated, true, handle, false)
    ensures Apply(t, RetargetFails) ==
            t.(lock := Free, closed := t.closed + {t.nextBackend}, nextBackend := t.nextBackend + 1)
  {
    var v := Apply(t, RetargetSwap(channel, target, readOnly, gated, handle));
    assert v.lock == ClosingOld(t.current.backend) && v.requests == t.requests && v.depth == t.depth;
    assert v.closed == t.closed;
  }

  /** A retarget of a channel in use by this tool or another, with input held on it, or after a cleanup has
      started, is refused and leaves everything as it was. */
  lemma {:induction false} BusyRetargetsChangeNothing(s: State, held: bool)
    requires s.lock == Free && (s.cleanupStarted || Of(s.depth, s.current.channel) != 0 || held)
    ensures Apply(Apply(s, RetargetLock), RetargetCheck(held)) == s
  {
    assert Apply(s, RetargetLock) == s.(lock := RetargetAsked);
  }

  /** The band is taken exactly where there is one to be raised, and given back once. */
  lemma {:induction false} TokensComeAndGo(s: State, r: nat, live: bool)
    requires r < |s.requests| && s.requests[r].phase == Ready && s.requests[r].token == None
    requires s.lock == Free && !s.cleanupStarted
    ensures var t := Apply(s, EnterBand(r, live));
      && t.requests[r].token == (if live then Some(s.current.channel) else None)
      && (forall c: Channel :: Of(t.depth, c) == Of(s.depth, c) + if live && c == s.current.channel then 1 else 0)
      && var u := Apply(Apply(t, End(r)), ExitBand(r));
      && u.requests[r].phase == Stopped && u.requests[r].token == None
      && (forall c: Channel :: Of(u.depth, c) == Of(s.depth, c)) && Apply(u, ExitBand(r)) == u
  {
  }

  /** Other tools on a channel keep it busy for as long as they are on it. */
  lemma {:induction false} OthersComeAndGo(s: State, c: Channel)
    ensures var t := Apply(s, OtherEnters(c));
      && (forall k: Channel :: Of(t.depth, k) == Of(s.depth, k) + if k == c then 1 else 0)
      && (forall k: Channel :: Of(t.others, k) == Of(s.others, k) + if k == c then 1 else 0)
      && (forall k: Channel :: Of(Apply(t, OtherExits(c)).depth, k) == Of(s.depth, k))
      && (forall k: Channel :: Of(Apply(t, OtherExits(c)).others, k) == Of(s.others, k))
  {
  }

  /** One disclosure does for all: whoever finds it made, waiting for the lock or not, goes on. */
  lemma {:induction false} OneDisclosureIsEnough(s: State, r: nat)
    requires r < |s.requests| && s.current.announced && !s.current.refused && !s.cleanupStarted
    ensures s.requests[r].phase == Confirmed ==> Apply(s, Announce(r)).requests[r].phase == Announced
    ensures s.requests[r].phase == WantsLock && s.lock == Free ==>
              Apply(s, AnnounceLocked(r)).requests[r].phase == Announced && Apply(s, AnnounceLocked(r)).lock == Free
  {
  }

  /** A check that passes renews the pin: from then on it is the binding of that moment that may not change;
      what the request was validated against is kept beside it. */
  lemma {:induction false} ChecksRenewThePin(s: State, l: Label, r: nat)
    requires r < |s.requests| && (l == Confirm(r) || l == Repin(r)) && Apply(s, l) != s
    ensures var q := Apply(s, l).requests[r];
      && s.requests[r].phase == (if l.Confirm? then Approved else Announced)
      && (q.phase == Stopped || (q.pinned == s.current && q.phase == (if l.Confirm? then Confirmed else Ready)))
      && q.prepared == s.requests[r].prepared && Apply(s, l).current == s.current
  {
  }
}
