/** One ComputerTool shared by racing requests, retargets, policy tightening and session cleanup
    (__init__.py: _disclosed_binding, _approve_write, _ensure_announced, _run_flat_step, _run_key_press,
    _check_write, _band_enter, retarget, the _read_only setter and close_current_binding).

    `_announce_lock` is `lock`; what its owner is doing is part of its value. The binding is replaced,
    never changed in place, so each assignment makes a binding with a fresh `id`. */
module Dispatch {
  import opened Wrappers

  type BackendId = nat
  type Callback = nat
  type Channel = nat

  datatype Binding = Binding(
    id: nat,              // object identity
    backend: BackendId,
    channel: Channel,     // the physical target, with its depth counter
    target: nat,          // display, monitor, guard, ledger, ...: whatever else belongs to the target
    readOnly: bool,
    gated: bool,
    announced: bool,
    announcement: nat,    // 0 for no handle
    refused: bool)
  {
    /** dataclasses.replace(binding, announcement=..., announced=...) compared by value. */
    predicate SameButForDisclosure(b: Binding) {
      && backend == b.backend && channel == b.channel && target == b.target
      && readOnly == b.readOnly && gated == b.gated && refused == b.refused
    }
  }

  datatype Phase =
    | Fresh
    | Pinned            // binding read, calls validated against it
    | Asking(callback: Callback)
    | Approved
    | Confirmed         // first _disclosed_binding passed
    | WantsLock         // slow path of _ensure_announced
    | Building          // holds the lock, disclosure being built
    | Handled           // holds the lock, handle stored
    | Refusing          // holds the lock, refusal stored
    | Announced         // _ensure_announced has returned
    | Ready             // second _disclosed_binding passed
    | Underway          // past _band_enter; steps may be queued
    | Checking          // holds the lock
    | InCall            // holds the lock, the backend call is running
    | Stopped

  datatype Request = Request(
    phase: Phase,
    mutating: bool,               // some action of it writes
    writes: bool,                 // the action of the step under way does
    token: Option<Channel>,       // the band token held, by its channel
    prepared: Binding,            // what the request was validated and approved against
    pinned: Binding,
    approved: Option<Callback>)
  {
    predicate OwnsLock() {
      phase == Building || phase == Handled || phase == Refusing || phase == Checking || phase == InCall
    }
  }

  datatype Lock =
    | Free
    | ByRequest(r: nat)
    | RetargetAsked                  // about to look whether the channel is busy
    | Retargeting                    // it is not: building the new binding off to the side
    | ClosingOld(previous: BackendId)     // swapped; the old backend is about to be closed
    | Tightening
    | Cleaning(marked: bool)

  datatype State = State(
    lock: Lock,
    current: Binding,
    nextId: nat,
    nextBackend: BackendId,
    closed: set<BackendId>,
    cleanupStarted: bool,
    approval: Option<Callback>,
    depth: map<Channel, nat>,        // of each channel, shared with other tools
    others: map<Channel, nat>,       // tokens those hold
    requests: seq<Request>)

  datatype Label =
    | Arrive(mutating: bool)
    | SetApproval(callback: Option<Callback>)
    | Pin(r: nat)
    | Ask(r: nat)
    | Answer(r: nat, allowed: bool)
    | Confirm(r: nat)
    | Announce(r: nat)                       // unlocked fast path
    | AnnounceLocked(r: nat)
    | Built(r: nat, handle: nat, consent: bool)
    | Settle(r: nat)                         // second assignment, or the close after a refusal
    | Repin(r: nat)
    | EnterBand(r: nat, live: bool)          // a handle that can be raised and lowered, or none
    | Queue(r: nat, writes: bool)            // a worker takes the lock for one step
    | Dispatch(r: nat)                       // _check_write and the start of the backend call
    | Return(r: nat)
    | End(r: nat)
    | ExitBand(r: nat)
    | OtherEnters(c: Channel)
    | OtherExits(c: Channel)
    | RetargetLock
    | RetargetCheck(held: bool)              // the ledger of the target holds input
    | RetargetFails
    | RetargetSwap(channel: Channel, target: nat, readOnly: bool, gated: bool, handle: nat)
    | RetargetCloseOld
    | TightenLock
    | Tighten(value: bool)
    | CleanupLock
    | CleanupMark
    | CleanupClose

  function InitialBinding(readOnly: bool, gated: bool): Binding {
    Binding(0, 0, 0, 0, readOnly, gated, false, 0, false)
  }

  function Init(readOnly: bool, gated: bool): State {
    State(Free, InitialBinding(readOnly, gated), 1, 1, {}, false, None, map[], map[], [])
  }

  function Of(m: map<Channel, nat>, c: Channel): nat { if c in m then m[c] else 0 }

  function Up(m: map<Channel, nat>, c: Channel): map<Channel, nat> { m[c := Of(m, c) + 1] }

  function Down(m: map<Channel, nat>, c: Channel): map<Channel, nat> {
    if Of(m, c) > 0 then m[c := Of(m, c) - 1] else m
  }

  /** self._binding = b, a new object. */
  function Install(s: State, b: Binding): State {
    s.(current := b.(id := s.nextId), nextId := s.nextId + 1)
  }

  function Put(s: State, r: nat, q: Request): State
    requires r < |s.requests|
  {
    s.(requests := s.requests[r := q])
  }

  function Stop(s: State, r: nat): State
    requires r < |s.requests|
  {
    Put(s, r, s.requests[r].(phase := Stopped))
  }

  predicate Disclosed(s: State, pinned: Binding) {
    var lifecycleChanged := s.current.announcement != pinned.announcement || s.current.announced != pinned.announced;
    (s.current.id == pinned.id || lifecycleChanged) && s.current.SameButForDisclosure(pinned)
  }

  /** Steps of one request before its calls are queued. */
  function PrepareStep(s: State, l: Label, r: nat): State
    requires r < |s.requests|
  {
    var q := s.requests[r];
    match l
    case Pin(_) =>
      if q.phase != Fresh then s
      else if s.cleanupStarted then Stop(s, r)
      else Put(s, r, q.(phase := Pinned, pinned := s.current, prepared := s.current))
    case Ask(_) =>
      if q.phase != Pinned then s
      else if !q.mutating then Put(s, r, q.(phase := Approved))
      else if q.pinned.readOnly then Stop(s, r)
      else if !q.pinned.gated then Put(s, r, q.(phase := Approved))
      else if s.approval.None? then Stop(s, r)
      else Put(s, r, q.(phase := Asking(s.approval.value)))
    case Answer(_, allowed) =>
      if !q.phase.Asking? then s
      else if s.approval != Some(q.phase.callback) || !Disclosed(s, q.pinned) || !allowed then Stop(s, r)
      else Put(s, r, q.(phase := Approved, approved := Some(q.phase.callback)))
    case Confirm(_) =>
      if q.phase != Approved then s
      else if !Disclosed(s, q.pinned) then Stop(s, r)
      else Put(s, r, q.(phase := Confirmed, pinned := s.current))
    case Announce(_) =>
      if q.phase != Confirmed then s
      else if s.cleanupStarted || s.current.refused then Stop(s, r)
      else Put(s, r, q.(phase := if s.current.announced then Announced else WantsLock))
    case Repin(_) =>
      if q.phase != Announced then s
      else if !Disclosed(s, q.pinned) then Stop(s, r)
      else Put(s, r, q.(phase := Ready, pinned := s.current))
    case _ => s
  }

  /** Steps of one request that take or hold the lock. */
  function LockedStep(s: State, l: Label, r: nat): State
    requires r < |s.requests|
  {
    var q := s.requests[r];
    match l
    case AnnounceLocked(_) =>
      if q.phase != WantsLock || s.lock != Free then s
      else if s.cleanupStarted || s.current.refused then Stop(s, r)
      else if s.current.announced then Put(s, r, q.(phase := Announced))
      else Put(s, r, q.(phase := Building)).(lock := ByRequest(r))
    case Built(_, handle, consent) =>
      if q.phase != Building then s
      else if consent then Install(Put(s, r, q.(phase := Handled)), s.current.(announcement := handle))
      else Install(Put(s, r, q.(phase := Refusing)), s.current.(refused := true))
    case Settle(_) =>
      if q.phase == Handled
      then Install(Put(s, r, q.(phase := Announced)), s.current.(announced := true)).(lock := Free)
      else if q.phase == Refusing
      then Stop(s, r).(closed := s.closed + {s.current.backend}, lock := Free)
      else s
    case Queue(_, writes) =>
      if q.phase != Underway || s.lock != Free then s
      else Put(s, r, q.(phase := Checking, writes := q.mutating && writes)).(lock := ByRequest(r))
    case Dispatch(_) =>
      if q.phase != Checking then s
      else if
        || s.cleanupStarted
        || s.current.id != q.pinned.id
        || (q.writes && q.pinned.readOnly)
        || (q.writes && q.pinned.gated && (q.approved.None? || s.approval != q.approved))
      then Stop(s, r).(lock := Free)
      else Put(s, r, q.(phase := InCall))
    case Return(_) =>
      if q.phase != InCall then s else Put(s, r, q.(phase := Underway)).(lock := Free)
    case _ => s
  }

  /** The band around a request's steps. _band_enter takes the lock for a moment, _band_exit does not. */
  function BandStep(s: State, l: Label, r: nat): State
    requires r < |s.requests|
  {
    var q := s.requests[r];
    match l
    case EnterBand(_, live) =>
      if q.phase != Ready || s.lock != Free then s
      else if s.cleanupStarted then Stop(s, r)
      else if !live then Put(s, r, q.(phase := Underway))
      else Put(s, r, q.(phase := Underway, token := Some(s.current.channel))).(depth := Up(s.depth, s.current.channel))
    case End(_) => if q.phase == Underway then Stop(s, r) else s
    case ExitBand(_) =>
      if q.phase != Stopped || q.token.None? then s
      else Put(s, r, q.(token := None)).(depth := Down(s.depth, q.token.value))
    case _ => s
  }

  /** Other tools on a channel. */
  function OtherStep(s: State, l: Label): State {
    match l
    case OtherEnters(c) => s.(depth := Up(s.depth, c), others := Up(s.others, c))
    case OtherExits(c) => if Of(s.others, c) == 0 then s else s.(depth := Down(s.depth, c), others := Down(s.others, c))
    case _ => s
  }

  /** Retarget, the _read_only setter and cleanup live only while they own the lock. */
  function OwnerStep(s: State, l: Label): State {
    match l
    case RetargetLock => if s.lock == Free then s.(lock := RetargetAsked) else s
    case RetargetCheck(held) =>
      if s.lock != RetargetAsked then s
      else s.(lock := if s.cleanupStarted || Of(s.depth, s.current.channel) != 0 || held then Free else Retargeting)
    case RetargetFails =>
      if s.lock != Retargeting then s
      else s.(lock := Free, closed := s.closed + {s.nextBackend}, nextBackend := s.nextBackend + 1)
    case RetargetSwap(channel, target, readOnly, gated, handle) =>
      if s.lock != Retargeting || s.cleanupStarted || channel == s.current.channel then s
      else Install(s, Binding(0, s.nextBackend, channel, target, readOnly, gated, true, handle, false))
           .(nextBackend := s.nextBackend + 1, lock := ClosingOld(s.current.backend))
    case RetargetCloseOld =>
      if s.lock.ClosingOld? then s.(closed := s.closed + {s.lock.previous}, lock := Free) else s
    case TightenLock => if s.lock == Free then s.(lock := Tightening) else s
    case Tighten(value) =>
      if s.lock == Tightening then Install(s, s.current.(readOnly := value)).(lock := Free) else s
    case CleanupLock => if s.lock == Free then s.(lock := Cleaning(false)) else s
    case CleanupMark =>
      if s.lock == Cleaning(false) then s.(cleanupStarted := true, lock := Cleaning(true)) else s
    case CleanupClose =>
      if s.lock == Cleaning(true) then s.(closed := s.closed + {s.current.backend}, lock := Free) else s
    case _ => s
  }

  predicate IsPrepare(l: Label) {
    l.Pin? || l.Ask? || l.Answer? || l.Confirm? || l.Announce? || l.Repin?
  }

  predicate IsLocked(l: Label) {
    l.AnnounceLocked? || l.Built? || l.Settle? || l.Queue? || l.Dispatch? || l.Return?
  }

  predicate IsBand(l: Label) { l.EnterBand? || l.End? || l.ExitBand? }

  function Apply(s: State, l: Label): State {
    if l.Arrive? then s.(requests := s.requests + [Request(Fresh, l.mutating, false, None, s.current, s.current, None)])
    else if l.SetApproval? then s.(approval := l.callback)
    else if IsPrepare(l) then (if l.r < |s.requests| then PrepareStep(s, l, l.r) else s)
    else if IsLocked(l) then (if l.r < |s.requests| then LockedStep(s, l, l.r) else s)
    else if IsBand(l) then (if l.r < |s.requests| then BandStep(s, l, l.r) else s)
    else if l.OtherEnters? || l.OtherExits? then OtherStep(s, l)
    else OwnerStep(s, l)
  }

  function Run(init: State, labels: seq<Label>): State {
    if labels == [] then init else Apply(Run(init, labels[..|labels| - 1]), labels[|labels| - 1])
  }

  // ---------------------------------------------------------------- invariant

  predicate Disclosing(p: Phase) { p == Building || p == Handled || p == Refusing }

  predicate PastDisclosure(p: Phase) { p == Announced || Dispatchable(p) }

  predicate Dispatchable(p: Phase) { p == Ready || HasEntered(p) }

  predicate HasEntered(p: Phase) { p == Underway || p == Checking || p == InCall }

  ghost predicate CurrentOk(s: State) {
    && s.current.id < s.nextId && s.current.backend < s.nextBackend
    && (forall b :: b in s.closed ==> b < s.nextBackend)
    && !(s.current.announced && s.current.refused)
    && (s.current.backend in s.closed ==> s.current.refused || s.cleanupStarted)
    && (s.lock.ClosingOld? ==> s.lock.previous < s.nextBackend && s.lock.previous != s.current.backend)
    && (s.lock == Cleaning(true) ==> s.cleanupStarted)
  }

  /** What a request has seen of the binding still fits. */
  ghost predicate BindingOk(q: Request, current: Binding, nextId: nat) {
    && q.pinned.id < nextId && (q.pinned.id == current.id ==> q.pinned == current)
    && q.pinned.SameButForDisclosure(q.prepared)
    && (Disclosing(q.phase) ==> !current.announced)
    && (q.phase == Building || q.phase == Handled ==> !current.refused)
    && (q.phase == Refusing ==> current.refused)
    && (PastDisclosure(q.phase) ==> current.announced)
    && (Dispatchable(q.phase) ==> q.pinned.announced)
    && (q.phase == InCall ==> q.pinned.id == current.id)
    && (q.writes ==> q.mutating)
  }

  ghost predicate TokenOk(q: Request, current: Binding, lock: Lock) {
    q.token.Some? ==>
      q.token.value == current.channel && lock != Retargeting && (HasEntered(q.phase) || q.phase == Stopped)
  }

  ghost predicate RequestOk(s: State, r: nat)
    requires r < |s.requests|
  {
    var q := s.requests[r];
    && BindingOk(q, s.current, s.nextId) && TokenOk(q, s.current, s.lock)
    && (q.OwnsLock() <==> s.lock == ByRequest(r))
    && (q.phase == InCall ==> !s.cleanupStarted)
  }

  /** The requests that hold a token of the channel. */
  function Tokens(qs: seq<Request>, c: Channel): nat {
    if qs == [] then 0 else Tokens(qs[..|qs| - 1], c) + if qs[|qs| - 1].token == Some(c) then 1 else 0
  }

  ghost predicate DepthOk(s: State) { forall c: Channel :: Of(s.depth, c) == Tokens(s.requests, c) + Of(s.others, c) }

  ghost predicate Core(s: State) {
    && CurrentOk(s)
    && (s.lock.ByRequest? ==> s.lock.r < |s.requests|)
    && forall r :: 0 <= r < |s.requests| ==> RequestOk(s, r)
  }

  ghost predicate Inv(s: State) { Core(s) && DepthOk(s) }

  lemma {:induction false} TokensUpdate(qs: seq<Request>, r: nat, q: Request, c: Channel)
    requires r < |qs|
    ensures Tokens(qs[r := q], c) ==
            Tokens(qs, c) - (if qs[r].token == Some(c) then 1 else 0) + (if q.token == Some(c) then 1 else 0)
    ensures qs[r].token == Some(c) ==> Tokens(qs, c) > 0
  {
    var n := |qs| - 1;
    if r == n {
      assert qs[r := q][..n] == qs[..n];
    } else {
      assert qs[r := q][..n] == qs[..n][r := q];
      TokensUpdate(qs[..n], r, q, c);
    }
  }

  lemma {:induction false} PrepareIsLocal(s: State, l: Label, r: nat)
    requires r < |s.requests|
    ensures var s' := PrepareStep(s, l, r); |s'.requests| == |s.requests| && s' == Put(s, r, s'.requests[r])
  {
  }

  lemma {:induction false} PrepareStaysOk(s: State, l: Label, r: nat)
    requires r < |s.requests| && RequestOk(s, r) && s.current.id < s.nextId
    ensures var s' := PrepareStep(s, l, r); |s'.requests| == |s.requests| && RequestOk(s', r)
  {
    if l.Ask? || l.Answer? {
      AskingStaysOk(s, l, r);
    } else if l.Confirm? || l.Repin? {
      RepinningStaysOk(s, l, r);
    }
  }

  /** Before disclosure, and when stopped, nothing much is asked of a request. */
  predicate Modest(p: Phase) { p == Pinned || p.Asking? || p == Approved || p == Confirmed || p == Stopped }

  lemma {:induction false} ModestStaysOk(s: State, r: nat, q: Request)
    requires r < |s.requests| && RequestOk(s, r) && !s.requests[r].OwnsLock() && Modest(q.phase)
    requires q.writes == s.requests[r].writes && q.mutating == s.requests[r].mutating
    requires q.token == s.requests[r].token && (q.token.Some? ==> q.phase == Stopped)
    requires q.pinned.id < s.nextId && (q.pinned.id == s.current.id ==> q.pinned == s.current)
    requires q.pinned.SameButForDisclosure(q.prepared)
    ensures RequestOk(Put(s, r, q), r)
  {
  }

  lemma {:induction false} AskingStaysOk(s: State, l: Label, r: nat)
    requires (l.Ask? || l.Answer?) && r < |s.requests| && RequestOk(s, r)
    ensures var s' := PrepareStep(s, l, r); |s'.requests| == |s.requests| && RequestOk(s', r)
  {
    var s' := PrepareStep(s, l, r);
    if s' != s {
      PrepareIsLocal(s, l, r);
      ModestStaysOk(s, r, s'.requests[r]);
    }
  }

  lemma {:induction false} RepinningStaysOk(s: State, l: Label, r: nat)
    requires (l.Confirm? || l.Repin?) && r < |s.requests| && RequestOk(s, r) && s.current.id < s.nextId
    ensures var s' := PrepareStep(s, l, r); |s'.requests| == |s.requests| && RequestOk(s', r)
  {
    var s' := PrepareStep(s, l, r);
    if s' != s {
      PrepareIsLocal(s, l, r);
      if s'.requests[r].phase == Ready {
        ReadyStaysOk(s, r);
      } else {
        ModestStaysOk(s, r, s'.requests[r]);
      }
    }
  }

  lemma {:induction false} ReadyStaysOk(s: State, r: nat)
    requires r < |s.requests| && RequestOk(s, r) && s.requests[r].phase == Announced && s.current.id < s.nextId
    requires s.current.SameButForDisclosure(s.requests[r].pinned)
    ensures RequestOk(Put(s, r, s.requests[r].(phase := Ready, pinned := s.current)), r)
  {
  }

  /** One request changes and nothing else. */
  lemma {:induction false} PutKeepsCore(s: State, r: nat, q: Request)
    requires Core(s) && r < |s.requests| && RequestOk(Put(s, r, q), r)
    ensures Core(Put(s, r, q))
  {
    var s' := Put(s, r, q);
    forall i | 0 <= i < |s'.requests| ensures RequestOk(s', i) { assert RequestOk(s, i); }
  }

  lemma {:induction false} PrepareKeepsCore(s: State, l: Label, r: nat)
    requires Core(s) && r < |s.requests|
    ensures Core(PrepareStep(s, l, r))
  {
    PrepareIsLocal(s, l, r);
    PrepareStaysOk(s, l, r);
    PutKeepsCore(s, r, PrepareStep(s, l, r).requests[r]);
  }

  /** The owner of the lock installs a new version of the binding, for the same target. */
  lemma {:induction false} InstallKeepsOthers(s: State, s': State, i: nat)
    requires i < |s.requests| == |s'.requests| && s'.requests[i] == s.requests[i]
    requires RequestOk(s, i) && !s.requests[i].OwnsLock() && s'.lock != ByRequest(i) && s'.lock != Retargeting
    requires s'.current.id == s.nextId < s'.nextId && s'.current.channel == s.current.channel
    requires s.current.announced ==> s'.current.announced
    ensures RequestOk(s', i)
  {
  }

  lemma {:induction false} BuiltKeepsCore(s: State, l: Label, r: nat)
    requires Core(s) && l.Built? && r < |s.requests|
    ensures Core(LockedStep(s, l, r))
  {
    var s' := LockedStep(s, l, r);
    assert RequestOk(s, r);
    if s' != s {
      forall i | 0 <= i < |s'.requests| ensures RequestOk(s', i) {
        if i != r {
          assert RequestOk(s, i);
          InstallKeepsOthers(s, s', i);
        }
      }
    }
  }

  lemma {:induction false} HandledKeepsCore(s: State, l: Label, r: nat)
    requires Core(s) && l.Settle? && r < |s.requests| && s.requests[r].phase == Handled
    ensures Core(LockedStep(s, l, r))
  {
    var s' := LockedStep(s, l, r);
    assert RequestOk(s, r);
    forall i | 0 <= i < |s'.requests| ensures RequestOk(s', i) {
      if i != r {
        assert RequestOk(s, i);
        InstallKeepsOthers(s, s', i);
      }
    }
  }

  lemma {:induction false} RefusingKeepsCore(s: State, l: Label, r: nat)
    requires Core(s) && l.Settle? && r < |s.requests| && s.requests[r].phase == Refusing
    ensures Core(LockedStep(s, l, r))
  {
    var s' := LockedStep(s, l, r);
    assert RequestOk(s, r);
    forall i | 0 <= i < |s'.requests| ensures RequestOk(s', i) { assert RequestOk(s, i); }
  }

  lemma {:induction false} AnnouncingKeepsCore(s: State, l: Label, r: nat)
    requires Core(s) && l.AnnounceLocked? && r < |s.requests|
    ensures Core(LockedStep(s, l, r))
  {
    var s' := LockedStep(s, l, r);
    assert RequestOk(s, r);
    if s'.lock == s.lock {
      assert s'.requests == s.requests[r := s'.requests[r]];
      PutKeepsCore(s, r, s'.requests[r]);
    } else {
      forall i | 0 <= i < |s'.requests| ensures RequestOk(s', i) { assert RequestOk(s, i); }
    }
  }

  lemma {:induction false} QueueingKeepsCore(s: State, l: Label, r: nat)
    requires Core(s) && l.Queue? && r < |s.requests|
    ensures Core(LockedStep(s, l, r))
  {
    var s' := LockedStep(s, l, r);
    assert RequestOk(s, r);
    forall i | 0 <= i < |s'.requests| ensures RequestOk(s', i) { assert RequestOk(s, i); }
  }

  lemma {:induction false} CallingKeepsCore(s: State, l: Label, r: nat)
    requires Core(s) && (l.Dispatch? || l.Return?) && r < |s.requests|
    ensures Core(LockedStep(s, l, r))
  {
    var s' := LockedStep(s, l, r);
    assert RequestOk(s, r);
    forall i | 0 <= i < |s'.requests| ensures RequestOk(s', i) { assert RequestOk(s, i); }
  }

  lemma {:induction false} OwnerKeepsCore(s: State, l: Label)
    requires Core(s) && !l.RetargetCheck?
    ensures Core(OwnerStep(s, l))
  {
    var s' := OwnerStep(s, l);
    forall r | 0 <= r < |s'.requests| ensures RequestOk(s', r) { assert RequestOk(s, r); }
  }

  /** A channel that is not busy has no token of this tool either, so the retarget may go on. */
  lemma {:induction false} RetargetCheckKeepsCore(s: State, held: bool)
    requires Inv(s)
    ensures Core(OwnerStep(s, RetargetCheck(held)))
  {
    var s' := OwnerStep(s, RetargetCheck(held));
    forall r | 0 <= r < |s'.requests| ensures RequestOk(s', r) {
      assert RequestOk(s, r);
      if s'.lock == Retargeting { TokensUpdate(s.requests, r, s.requests[r], s.current.channel); }
    }
  }

  lemma {:induction false} BandIsLocal(s: State, l: Label, r: nat)
    requires r < |s.requests|
    ensures var s' := BandStep(s, l, r);
      |s'.requests| == |s.requests| && s' == Put(s, r, s'.requests[r]).(depth := s'.depth)
  {
    assert BandStep(s, l, r).requests == s.requests[r := BandStep(s, l, r).requests[r]];
  }

  lemma {:induction false} EnteringStaysOk(s: State, r: nat, token: Option<Channel>)
    requires r < |s.requests| && RequestOk(s, r) && s.requests[r].phase == Ready && s.lock == Free
    requires token.Some? ==> token.value == s.current.channel
    ensures RequestOk(Put(s, r, s.requests[r].(phase := Underway, token := token)), r)
  {
  }

  lemma {:induction false} LeavingStaysOk(s: State, r: nat, q: Request)
    requires r < |s.requests| && RequestOk(s, r) && !s.requests[r].OwnsLock()
    requires q == s.requests[r].(phase := Stopped) || q == s.requests[r].(phase := Stopped, token := None)
    ensures RequestOk(Put(s, r, q), r)
  {
  }

  lemma {:induction false} BandKeepsCore(s: State, l: Label, r: nat)
    requires Core(s) && r < |s.requests|
    ensures Core(BandStep(s, l, r))
  {
    assert RequestOk(s, r);
    var s' := BandStep(s, l, r);
    var q := s'.requests[r];
    BandIsLocal(s, l, r);
    if s' != s {
      if q.phase == Underway { EnteringStaysOk(s, r, q.token); } else { LeavingStaysOk(s, r, q); }
      PutKeepsCore(s, r, q);
      DepthsDoNotMatter(Put(s, r, q), s'.depth, s.others);
    }
  }

  lemma {:induction false} DepthsDoNotMatter(s: State, depth: map<Channel, nat>, others: map<Channel, nat>)
    requires Core(s)
    ensures Core(s.(depth := depth, others := others))
  {
    forall r | 0 <= r < |s.requests| ensures RequestOk(s.(depth := depth, others := others), r) {
      assert RequestOk(s, r);
    }
  }

  lemma {:induction false} OutsideKeepsCore(s: State, l: Label)
    requires Core(s) && (l.Arrive? || l.SetApproval?)
    ensures Core(Apply(s, l))
  {
    var s' := Apply(s, l);
    forall r | 0 <= r < |s'.requests| ensures RequestOk(s', r) {
      if r < |s.requests| { assert RequestOk(s, r); }
    }
  }

  lemma {:induction false} ApplyKeepsCore(s: State, l: Label)
    requires Inv(s)
    ensures Core(Apply(s, l))
  {
    if IsPrepare(l) {
      if l.r < |s.requests| { PrepareKeepsCore(s, l, l.r); }
    } else if IsLocked(l) {
      if l.r < |s.requests| { LockedKeepsCore(s, l, l.r); }
    } else if IsBand(l) {
      if l.r < |s.requests| { BandKeepsCore(s, l, l.r); }
    } else if l.RetargetCheck? {
      RetargetCheckKeepsCore(s, l.held);
    } else if l.Arrive? || l.SetApproval? {
      OutsideKeepsCore(s, l);
    } else if l.OtherEnters? || l.OtherExits? {
      DepthsDoNotMatter(s, OtherStep(s, l).depth, OtherStep(s, l).others);
    } else {
      OwnerKeepsCore(s, l);
    }
  }

  lemma {:induction false} LockedKeepsCore(s: State, l: Label, r: nat)
    requires Core(s) && IsLocked(l) && r < |s.requests|
    ensures Core(LockedStep(s, l, r))
  {
    if l.Built? {
      BuiltKeepsCore(s, l, r);
    } else if l.Settle? && s.requests[r].phase == Handled {
      HandledKeepsCore(s, l, r);
    } else if l.Settle? && s.requests[r].phase == Refusing {
      RefusingKeepsCore(s, l, r);
    } else if l.Dispatch? || l.Return? {
      CallingKeepsCore(s, l, r);
    } else if l.Queue? {
      QueueingKeepsCore(s, l, r);
    } else if l.AnnounceLocked? {
      AnnouncingKeepsCore(s, l, r);
    }
  }

  /** A step of one request that leaves its token alone. */
  ghost predicate KeepsToken(s: State, r: nat, s': State) {
    && r < |s.requests| == |s'.requests| && s'.requests == s.requests[r := s'.requests[r]]
    && s'.requests[r].token == s.requests[r].token && s'.depth == s.depth && s'.others == s.others
  }

  /** A step that gives no approval and revives no request. */
  predicate Mild(q: Request, q': Request) {
    q'.approved == q.approved && (q.phase == Stopped ==> q'.phase == Stopped)
  }

  lemma {:induction false} DepthKept(s: State, r: nat, s': State)
    requires DepthOk(s) && KeepsToken(s, r, s')
    ensures DepthOk(s')
  {
    forall c: Channel ensures Tokens(s'.requests, c) == Tokens(s.requests, c) {
      TokensUpdate(s.requests, r, s'.requests[r], c);
    }
  }

  lemma {:induction false} PrepareKeepsToken(s: State, l: Label, r: nat)
    requires r < |s.requests|
    ensures KeepsToken(s, r, PrepareStep(s, l, r))
  {
  }

  lemma {:induction false} CallsKeepToken(s: State, l: Label, r: nat)
    requires r < |s.requests| && (l.Queue? || l.Dispatch? || l.Return?)
    ensures KeepsToken(s, r, LockedStep(s, l, r)) && Mild(s.requests[r], LockedStep(s, l, r).requests[r])
  {
  }

  lemma {:induction false} DisclosureKeepsToken(s: State, l: Label, r: nat)
    requires r < |s.requests| && (l.AnnounceLocked? || l.Built? || l.Settle?)
    ensures KeepsToken(s, r, LockedStep(s, l, r)) && Mild(s.requests[r], LockedStep(s, l, r).requests[r])
  {
  }

  lemma {:induction false} BandKeepsDepth(s: State, l: Label, r: nat)
    requires DepthOk(s) && r < |s.requests| && RequestOk(s, r)
    ensures DepthOk(BandStep(s, l, r))
  {
    var t := BandStep(s, l, r);
    BandIsLocal(s, l, r);
    forall c: Channel ensures Of(t.depth, c) == Tokens(t.requests, c) + Of(t.others, c) {
      TokensUpdate(s.requests, r, t.requests[r], c);
      assert Of(s.depth, c) == Tokens(s.requests, c) + Of(s.others, c);
      if l.ExitBand? && s.requests[r].token.Some? {
        var d := s.requests[r].token.value;
        TokensUpdate(s.requests, r, t.requests[r], d);
        assert Of(s.depth, d) == Tokens(s.requests, d) + Of(s.others, d);
      }
    }
  }

  lemma {:induction false} OthersKeepDepth(s: State, l: Label)
    requires DepthOk(s)
    ensures DepthOk(OtherStep(s, l))
  {
    var t := OtherStep(s, l);
    if t != s {
      var d := l.c;
      assert Of(s.depth, d) == Tokens(s.requests, d) + Of(s.others, d) && t.requests == s.requests;
      forall c: Channel ensures Of(t.depth, c) == Tokens(t.requests, c) + Of(t.others, c) {
        assert Of(s.depth, c) == Tokens(s.requests, c) + Of(s.others, c);
        assert c != d ==> Of(t.depth, c) == Of(s.depth, c) && Of(t.others, c) == Of(s.others, c);
      }
    }
  }

  lemma {:induction false} ArrivalsKeepDepth(s: State, q: Request)
    requires DepthOk(s) && q.token == None
    ensures DepthOk(s.(requests := s.requests + [q]))
  {
    var qs := s.requests + [q];
    assert qs[..|qs| - 1] == s.requests && qs[|qs| - 1] == q;
    forall c: Channel ensures Of(s.depth, c) == Tokens(qs, c) + Of(s.others, c) {
      assert Of(s.depth, c) == Tokens(s.requests, c) + Of(s.others, c);
    }
  }

  lemma {:induction false} OwnerKeepsDepth(s: State, l: Label)
    requires DepthOk(s)
    ensures DepthOk(OwnerStep(s, l))
  {
    var t := OwnerStep(s, l);
    assert t.depth == s.depth && t.others == s.others && t.requests == s.requests;
  }

  lemma {:induction false} ApplyKeepsDepth(s: State, l: Label)
    requires Inv(s)
    ensures DepthOk(Apply(s, l))
  {
    if l.Arrive? {
      ArrivalsKeepDepth(s, Request(Fresh, l.mutating, false, None, s.current, s.current, None));
    } else if IsPrepare(l) {
      if l.r < |s.requests| {
        PrepareKeepsToken(s, l, l.r);
        DepthKept(s, l.r, PrepareStep(s, l, l.r));
      }
    } else if IsLocked(l) {
      if l.r < |s.requests| {
        if l.Queue? || l.Dispatch? || l.Return? { CallsKeepToken(s, l, l.r); } else { DisclosureKeepsToken(s, l, l.r); }
        DepthKept(s, l.r, LockedStep(s, l, l.r));
      }
    } else if IsBand(l) {
      if l.r < |s.requests| {
        assert RequestOk(s, l.r);
        BandKeepsDepth(s, l, l.r);
      }
    } else if l.OtherEnters? || l.OtherExits? {
      OthersKeepDepth(s, l);
    } else if !l.SetApproval? {
      OwnerKeepsDepth(s, l);
    }
  }

  lemma {:induction false} RunKeepsInv(readOnly: bool, gated: bool, labels: seq<Label>)
    ensures Inv(Run(Init(readOnly, gated), labels))
  {
    if labels != [] {
      RunKeepsInv(readOnly, gated, labels[..|labels| - 1]);
      ApplyKeepsCore(Run(Init(readOnly, gated), labels[..|labels| - 1]), labels[|labels| - 1]);
      ApplyKeepsDepth(Run(Init(readOnly, gated), labels[..|labels| - 1]), labels[|labels| - 1]);
    }
  }

  // ---------------------------------------------------------------- what holds in every run

  ghost predicate Starts(s: State, l: Label, r: nat) {
    l == Dispatch(r) && r < |s.requests| && s.requests[r].phase == Checking && Apply(s, l).requests[r].phase == InCall
  }

  /** Every backend call starts on the binding that is current at that moment, disclosed and not
      cleaned up, with the very target and policy its request was validated and approved against. */
  lemma {:induction false} CallsStartOnTheCheckedBinding(readOnly: bool, gated: bool, labels: seq<Label>,
      l: Label, r: nat)
    requires Starts(Run(Init(readOnly, gated), labels), l, r)
    ensures var s := Run(Init(readOnly, gated), labels);
      var q := s.requests[r];
      && q.pinned == s.current && s.current.announced && !s.current.refused && !s.cleanupStarted
      && s.current.backend !in s.closed
      && s.current.backend == q.prepared.backend && s.current.channel == q.prepared.channel
      && s.current.target == q.prepared.target && s.current.readOnly == q.prepared.readOnly
      && s.current.gated == q.prepared.gated && !q.prepared.refused
      && (q.writes ==> q.mutating && !s.current.readOnly)
      && (q.writes && s.current.gated ==> q.approved.Some? && s.approval == q.approved)
  {
    RunKeepsInv(readOnly, gated, labels);
    assert RequestOk(Run(Init(readOnly, gated), labels), r);
  }

  /** While a call is running nothing can replace its binding, close its backend or start cleanup. */
  lemma {:induction false} NothingMovesUnderARunningCall(readOnly: bool, gated: bool, labels: seq<Label>,
      l: Label, r: nat)
    requires var s := Run(Init(readOnly, gated), labels);
      r < |s.requests| && s.requests[r].phase == InCall
    ensures var s := Run(Init(readOnly, gated), labels);
      && s.current == s.requests[r].pinned && s.current.backend !in s.closed
      && Apply(s, l).current == s.current && Apply(s, l).closed == s.closed && !Apply(s, l).cleanupStarted
  {
    RunKeepsInv(readOnly, gated, labels);
    NothingMoves(Run(Init(readOnly, gated), labels), l, r);
  }

  lemma {:induction false} NothingMoves(s: State, l: Label, r: nat)
    requires Core(s) && r < |s.requests| && s.requests[r].phase == InCall
    ensures s.current == s.requests[r].pinned && s.current.backend !in s.closed && !s.cleanupStarted
    ensures Unmoved(s, Apply(s, l))
  {
    assert RequestOk(s, r);
    if IsLocked(l) && l.r < |s.requests| {
      assert RequestOk(s, l.r);
      LockedUnderACall(s, l, r);
    } else if IsPrepare(l) || IsBand(l) {
      if l.r < |s.requests| { UnlockedStepsMoveNothing(s, l, l.r); }
    } else if !IsLocked(l) {
      OwnersWait(s, l, r);
    }
  }

  lemma {:induction false} OwnersWait(s: State, l: Label, r: nat)
    requires s.lock == ByRequest(r)
    ensures OwnerStep(s, l) == s && Unmoved(s, OtherStep(s, l))
  {
  }

  /** What the steps that own nothing leave alone. */
  ghost predicate Unmoved(s: State, s': State) {
    s'.current == s.current && s'.closed == s.closed && s'.cleanupStarted == s.cleanupStarted
  }

  lemma {:induction false} UnlockedStepsMoveNothing(s: State, l: Label, r: nat)
    requires r < |s.requests|
    ensures Unmoved(s, PrepareStep(s, l, r)) && Unmoved(s, BandStep(s, l, r))
  {
  }

  lemma {:induction false} LockedUnderACall(s: State, l: Label, r: nat)
    requires IsLocked(l) && l.r < |s.requests| && r < |s.requests| && s.requests[r].phase == InCall
    requires RequestOk(s, r) && RequestOk(s, l.r)
    ensures Unmoved(s, LockedStep(s, l, l.r))
  {
  }

  /** At most one backend call runs at a time. */
  lemma {:induction false} CallsNeverOverlap(readOnly: bool, gated: bool, labels: seq<Label>, r: nat, t: nat)
    requires var s := Run(Init(readOnly, gated), labels);
      r < |s.requests| && t < |s.requests| && s.requests[r].phase == InCall && s.requests[t].phase == InCall
    ensures r == t
  {
    RunKeepsInv(readOnly, gated, labels);
    assert RequestOk(Run(Init(readOnly, gated), labels), r) && RequestOk(Run(Init(readOnly, gated), labels), t);
  }

  /** A request that is ready, undisturbed and within policy does get its calls, reading or writing: the
      checks stop nothing else. */
  lemma {:induction false} UndisturbedRequestsRun(
      readOnly: bool, gated: bool, labels: seq<Label>, r: nat, live: bool, writes: bool)
    requires var s := Run(Init(readOnly, gated), labels);
      && r < |s.requests| && s.requests[r].phase == Ready && s.lock == Free
      && s.current == s.requests[r].pinned && !s.cleanupStarted
      && (s.requests[r].mutating && writes ==>
            !s.current.readOnly && (s.current.gated ==> s.approval.Some? && s.approval == s.requests[r].approved))
    ensures var s := Apply(Run(Init(readOnly, gated), labels), EnterBand(r, live));
      Starts(Apply(s, Queue(r, writes)), Dispatch(r), r)
  {
  }

  /** The depth of a channel counts the tokens of all tools, and this tool only ever holds tokens of the
      channel it is bound to. */
  lemma {:induction false} TokensAreOfTheCurrentChannel(readOnly: bool, gated: bool, labels: seq<Label>, r: nat)
    requires r < |Run(Init(readOnly, gated), labels).requests|
    ensures var s := Run(Init(readOnly, gated), labels);
      && (s.requests[r].token.Some? ==>
            s.requests[r].token.value == s.current.channel && Of(s.depth, s.current.channel) > 0)
      && forall c: Channel :: Of(s.depth, c) == Tokens(s.requests, c) + Of(s.others, c)
  {
    RunKeepsInv(readOnly, gated, labels);
    var s := Run(Init(readOnly, gated), labels);
    assert RequestOk(s, r);
    TokensUpdate(s.requests, r, s.requests[r], s.current.channel);
  }

  /** A retarget changes the binding only while no request of this tool holds a token: a band is never left
      raised behind a tool that has gone elsewhere. */
  lemma {:induction false} SwapsLeaveNoTokenBehind(readOnly: bool, gated: bool, labels: seq<Label>, l: Label, r: nat)
    requires var s := Run(Init(readOnly, gated), labels);
      r < |s.requests| && l.RetargetSwap? && Apply(s, l).current != s.current
    ensures var s := Run(Init(readOnly, gated), labels);
      && s.requests[r].token == None && s.requests[r].phase != InCall
      && Apply(s, l).current.channel != s.current.channel
  {
    RunKeepsInv(readOnly, gated, labels);
    assert RequestOk(Run(Init(readOnly, gated), labels), r);
  }

  // ---------------------------------------------------------------- the operator's answer

  /** At its k-th step the run is told yes, for a request that is asking exactly this callback. */
  ghost predicate Grants(init: State, labels: seq<Label>, k: nat, r: nat, callback: Callback) {
    && k < |labels| && labels[k] == Answer(r, true)
    && r < |Run(init, labels[..k]).requests| && Run(init, labels[..k]).requests[r].phase == Asking(callback)
  }

  /** An approval comes from a yes and from nothing else. */
  lemma {:induction false} ApprovalsAreAnswers(s: State, l: Label, r: nat)
    requires r < |Apply(s, l).requests| && Apply(s, l).requests[r].approved.Some?
    ensures r < |s.requests|
    ensures s.requests[r].approved == Apply(s, l).requests[r].approved ||
              (l == Answer(r, true) && s.requests[r].phase == Asking(Apply(s, l).requests[r].approved.value))
  {
    if IsPrepare(l) && l.r < |s.requests| {
      PrepareIsLocal(s, l, l.r);
      PreparingApproves(s, l, l.r);
    } else if IsLocked(l) && l.r < |s.requests| {
      LockedIsMild(s, l, l.r);
    } else if IsBand(l) && l.r < |s.requests| {
      BandIsLocal(s, l, l.r);
    }
  }

  lemma {:induction false} PreparingApproves(s: State, l: Label, r: nat)
    requires r < |s.requests|
    ensures var q, q' := s.requests[r], PrepareStep(s, l, r).requests[r];
      || q'.approved == q.approved
      || (l.Answer? && l.allowed && q.phase.Asking? && q'.approved == Some(q.phase.callback))
  {
  }

  lemma {:induction false} LockedIsMild(s: State, l: Label, r: nat)
    requires IsLocked(l) && r < |s.requests|
    ensures KeepsToken(s, r, LockedStep(s, l, r)) && Mild(s.requests[r], LockedStep(s, l, r).requests[r])
  {
    if l.Queue? || l.Dispatch? || l.Return? { CallsKeepToken(s, l, r); } else { DisclosureKeepsToken(s, l, r); }
  }

  lemma {:induction false} ApprovedWereGranted(init: State, labels: seq<Label>, r: nat)
    requires init.requests == [] && r < |Run(init, labels).requests| && Run(init, labels).requests[r].approved.Some?
    ensures exists k: nat :: Grants(init, labels, k, r, Run(init, labels).requests[r].approved.value)
  {
    if labels != [] {
      var earlier, l := labels[..|labels| - 1], labels[|labels| - 1];
      var s, callback := Run(init, earlier), Run(init, labels).requests[r].approved.value;
      ApprovalsAreAnswers(s, l, r);
      if s.requests[r].approved == Some(callback) {
        ApprovedWereGranted(init, earlier, r);
        var k: nat :| Grants(init, earlier, k, r, callback);
        GrantsLast(init, earlier, l, k, r, callback);
        assert earlier + [l] == labels;
      } else {
        assert Grants(init, labels, |labels| - 1, r, callback);
      }
    }
  }

  lemma {:induction false} GrantsLast(init: State, labels: seq<Label>, l: Label, k: nat, r: nat, callback: Callback)
    requires Grants(init, labels, k, r, callback)
    ensures Grants(init, labels + [l], k, r, callback)
  {
    assert (labels + [l])[..k] == labels[..k];
  }

  /** No writing call on a gated target starts without a yes: given to this very request, by the callback
      that is still the installed one. */
  lemma {:induction false} GatedWritesWereGranted(readOnly: bool, gated: bool, labels: seq<Label>, r: nat)
    requires Starts(Run(Init(readOnly, gated), labels), Dispatch(r), r)
    ensures var s := Run(Init(readOnly, gated), labels);
      s.requests[r].writes && s.current.gated ==>
        s.approval.Some? && exists k: nat :: Grants(Init(readOnly, gated), labels, k, r, s.approval.value)
  {
    CallsStartOnTheCheckedBinding(readOnly, gated, labels, Dispatch(r), r);
    var s := Run(Init(readOnly, gated), labels);
    if s.requests[r].writes && s.current.gated { ApprovedWereGranted(Init(readOnly, gated), labels, r); }
  }

  lemma {:induction false} StoppedIsFinal(s: State, l: Label, r: nat)
    requires r < |s.requests| && s.requests[r].phase == Stopped
    ensures r < |Apply(s, l).requests| && Apply(s, l).requests[r].phase == Stopped
  {
    if IsPrepare(l) && l.r < |s.requests| {
      PrepareIsLocal(s, l, l.r);
    } else if IsLocked(l) && l.r < |s.requests| {
      LockedIsMild(s, l, l.r);
    } else if IsBand(l) && l.r < |s.requests| {
      BandIsLocal(s, l, l.r);
    }
  }

  lemma {:induction false} StoppedStaysStopped(init: State, labels: seq<Label>, more: seq<Label>, r: nat)
    requires r < |Run(init, labels).requests| && Run(init, labels).requests[r].phase == Stopped
    ensures r < |Run(init, labels + more).requests| && Run(init, labels + more).requests[r].phase == Stopped
  {
    if more == [] {
      assert labels + more == labels;
    } else {
      var last := |more| - 1;
      StoppedStaysStopped(init, labels, more[..last], r);
      assert (labels + more)[..|labels + more| - 1] == labels + more[..last];
      StoppedIsFinal(Run(init, labels + more[..last]), more[last], r);
    }
  }

  /** A no is final: the request is stopped, and none of its steps ever starts a call. */
  lemma {:induction false} DeniedRequestsNeverRun(init: State, labels: seq<Label>, more: seq<Label>, l: Label, r: nat)
    requires r < |Run(init, labels).requests| && Run(init, labels).requests[r].phase.Asking?
    ensures var s := Run(init, labels + [Answer(r, false)] + more);
      r < |s.requests| && s.requests[r].phase == Stopped && !Starts(s, l, r)
  {
    var denied := labels + [Answer(r, false)];
    assert denied[..|labels|] == labels && denied[..|denied| - 1] == labels;
    assert Run(init, denied) == Apply(Run(init, labels), Answer(r, false));
    StoppedStaysStopped(init, denied, more, r);
  }

  // ---------------------------------------------------------------- what becomes of a binding

  /** Every backend ever made is the current one, is closed, or is about to be. */
  ghost predicate NoneLeaks(s: State) {
    && s.current.backend < s.nextBackend
    && forall b: BackendId :: b < s.nextBackend ==> b == s.current.backend || b in s.closed || s.lock == ClosingOld(b)
  }

  lemma {:induction false} ApplyKeepsNoLeak(s: State, l: Label)
    requires NoneLeaks(s) && Core(s)
    ensures NoneLeaks(Apply(s, l))
  {
    if IsPrepare(l) && l.r < |s.requests| {
      PrepareIsLocal(s, l, l.r);
    } else if IsLocked(l) && l.r < |s.requests| {
      assert RequestOk(s, l.r);
      LockedKeepsNoLeak(s, l, l.r);
    } else if IsBand(l) && l.r < |s.requests| {
      BandIsLocal(s, l, l.r);
    }
  }

  lemma {:induction false} LockedKeepsNoLeak(s: State, l: Label, r: nat)
    requires NoneLeaks(s) && r < |s.requests| && RequestOk(s, r)
    ensures NoneLeaks(LockedStep(s, l, r))
  {
  }

  /** No backend is left open behind the tool, whether a retarget succeeds or fails. */
  lemma {:induction false} NoBackendLeaks(readOnly: bool, gated: bool, labels: seq<Label>)
    ensures NoneLeaks(Run(Init(readOnly, gated), labels))
  {
    if labels != [] {
      NoBackendLeaks(readOnly, gated, labels[..|labels| - 1]);
      RunKeepsInv(readOnly, gated, labels[..|labels| - 1]);
      ApplyKeepsNoLeak(Run(Init(readOnly, gated), labels[..|labels| - 1]), labels[|labels| - 1]);
    }
  }

  /** A cleanup is never undone, and no call starts after it. */
  lemma {:induction false} CleanupIsFinal(s: State, l: Label, r: nat)
    requires s.cleanupStarted
    ensures Apply(s, l).cleanupStarted && !Starts(s, l, r)
  {
    NothingStartsAfterCleanup(s, r);
    if IsPrepare(l) && l.r < |s.requests| {
      UnlockedStepsMoveNothing(s, l, l.r);
    } else if IsBand(l) && l.r < |s.requests| {
      UnlockedStepsMoveNothing(s, l, l.r);
    } else if IsLocked(l) && l.r < |s.requests| {
      LockedKeepsCleanup(s, l, l.r);
    }
  }

  lemma {:induction false} NothingStartsAfterCleanup(s: State, r: nat)
    requires s.cleanupStarted
    ensures !Starts(s, Dispatch(r), r)
  {
  }

  lemma {:induction false} LockedKeepsCleanup(s: State, l: Label, r: nat)
    requires r < |s.requests| && s.cleanupStarted
    ensures LockedStep(s, l, r).cleanupStarted
  {
  }

  /** What the owners of the lock are for: a tightening is in force at once and changes nothing else of the
      binding, and a cleanup is marked before it closes the backend. */
  lemma {:induction false} OwnersTakeEffect(s: State, v: bool)
    ensures s.lock == Free ==>
              Apply(s, TightenLock) == s.(lock := Tightening) && Apply(s, CleanupLock) == s.(lock := Cleaning(false))
    ensures s.lock == Tightening ==>
              && Apply(s, Tighten(v)).current == s.current.(readOnly := v, id := s.nextId)
              && Apply(s, Tighten(v)).lock == Free
    ensures s.lock == Cleaning(false) ==> Apply(s, CleanupMark) == s.(cleanupStarted := true, lock := Cleaning(true))
    ensures s.lock == Cleaning(true) ==>
              Apply(s, CleanupClose) == s.(closed := s.closed + {s.current.backend}, lock := Free)
  {
  }
}
