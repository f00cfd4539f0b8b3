/** Scratch-directory leases (agent_scratch_lease.py).

    Any number of agent processes and sweepers share one base directory. Every step below is one
    system call of the source, and a run is any sequence of such steps by any processes in any order,
    with faults, deaths and clock changes wherever they like.

    An agent makes one directory and at most one marker in it, so its identifier also serves as the
    identity (device and inode) of both. Inodes held open are never reused. */
module ScratchLease {
  type Name = string
  type AgentId = nat
  type SweeperId = nat

  const RETENTION_FLOOR: real := 86400.0

  /** What the marker file holds: nothing, part of the magic line, or exactly the magic line. */
  datatype Content = Empty | Torn | Magic

  datatype Lock = Free | ByCreator | BySweeper(sweeper: SweeperId)

  datatype AgentPhase = HasDir | MarkerOpen | Holding | Written | Unleased | Dead

  datatype Agent = Agent(
    phase: AgentPhase,
    name: Name,
    isPrivate: bool,    // owned by this user, mode 0700
    dirLinked: bool,
    markerMade: bool,
    markerLinked: bool,
    extraLinks: nat,
    content: Content,
    mtime: real,
    lock: Lock,
    acquired: bool)     // the creator has held the lock at some time
  {
    predicate HoldsLease() { phase == Holding || phase == Written }

    function LinkCount(): nat { extraLinks + if markerLinked then 1 else 0 }

    /** The part of _is_valid_marker that fstat answers; the size is right only for the whole line. */
    predicate StatValid() { LinkCount() == 1 && content == Magic }
  }

  datatype SweepPhase =
    | Off
    | Ready
    | Statted        // name looked up
    | DirOpen        // directory opened and compared
    | MarkerOpened
    | Fstatted
    | Valid
    | Aged
    | Locked
    | Refstatted
    | Revalid
    | SameDir        // _current_is_same: directory compared again
    | SameMarker     // _current_is_same: marker compared again
    | Unlinking      // rmtree has removed the contents
    | Removed        // rmtree has removed the directory
    | Closing

  datatype Sweeper = Sweeper(
    phase: SweepPhase,
    now: real,
    maxAge: real,
    name: Name,
    dir: AgentId,
    mtime: real)
  {
    function MinimumAge(): (m: real)
      ensures m >= RETENTION_FLOOR && m >= maxAge
    {
      if maxAge > RETENTION_FLOOR then maxAge else RETENTION_FLOOR
    }

    function To(p: SweepPhase): Sweeper { this.(phase := p) }
  }

  datatype State = State(
    clock: real,
    names: map<Name, AgentId>,
    agents: map<AgentId, Agent>,
    sweepers: map<SweeperId, Sweeper>,
    reports: seq<AgentId>)   // one entry for each True returned by a removal

  datatype Label =
    | SetClock(t: real)
    | Spawn(i: AgentId, name: Name, isPrivate: bool)
    | CreateMarker(i: AgentId)
    | Flock(i: AgentId)
    | Write(i: AgentId, wrote: Content)
    | Die(i: AgentId)
    | ExitUnlink(i: AgentId)     // the creator's own clean-up at exit: contents
    | ExitRmdir(i: AgentId)      // and then the directory
    | AddLink(i: AgentId)
    | DropLink(i: AgentId)
    | SweepStart(k: SweeperId, maxAge: real)
    | SweepStep(k: SweeperId, name: Name, fault: bool)
    | SweeperDies(k: SweeperId)

  const INIT := State(0.0, map[], map[], map[], [])

  // ---------------------------------------------------------------- steps

  function Put(s: State, i: AgentId, a: Agent): State { s.(agents := s.agents[i := a]) }

  function Move(s: State, k: SweeperId, w: Sweeper): State { s.(sweepers := s.sweepers[k := w]) }

  function Without(names: map<Name, AgentId>, n: Name): map<Name, AgentId> { names - {n} }

  function AgentStep(s: State, l: Label): State {
    match l
    case Spawn(i, name, isPrivate) =>
      if i in s.agents || name in s.names then s
      else Put(s, i, Agent(HasDir, name, isPrivate, true, false, false, 0, Empty, s.clock, Free, false))
           .(names := s.names[name := i])
    case CreateMarker(i) =>
      if i !in s.agents || s.agents[i].phase != HasDir then s
      else if !s.agents[i].isPrivate || !s.agents[i].dirLinked then Put(s, i, s.agents[i].(phase := Unleased))
      else Put(s, i, s.agents[i].(phase := MarkerOpen, markerMade := true, markerLinked := true, mtime := s.clock))
    case Flock(i) =>
      if i !in s.agents || s.agents[i].phase != MarkerOpen then s
      else if s.agents[i].lock != Free then Put(s, i, s.agents[i].(phase := Unleased))
      else Put(s, i, s.agents[i].(phase := Holding, lock := ByCreator, acquired := true))
    case Write(i, wrote) =>
      if i !in s.agents || s.agents[i].phase != Holding then s
      else Put(s, i, s.agents[i].(phase := Written, content := wrote,
                                  mtime := if wrote == Empty then s.agents[i].mtime else s.clock))
    case Die(i) =>
      if i !in s.agents then s
      else Put(s, i, s.agents[i].(phase := Dead,
                                  lock := if s.agents[i].lock == ByCreator then Free else s.agents[i].lock))
    case ExitUnlink(i) =>
      if i !in s.agents || s.agents[i].phase == Dead || !s.agents[i].dirLinked then s
      else Put(s, i, s.agents[i].(markerLinked := false))
    case ExitRmdir(i) =>
      if i !in s.agents || s.agents[i].phase == Dead || !s.agents[i].dirLinked || s.agents[i].markerLinked then s
      else Put(s, i, s.agents[i].(dirLinked := false)).(names := Without(s.names, s.agents[i].name))
    case AddLink(i) =>
      if i !in s.agents || !s.agents[i].markerMade || s.agents[i].LinkCount() == 0 then s
      else Put(s, i, s.agents[i].(extraLinks := s.agents[i].extraLinks + 1))
    case DropLink(i) =>
      if i !in s.agents || s.agents[i].extraLinks == 0 then s
      else Put(s, i, s.agents[i].(extraLinks := s.agents[i].extraLinks - 1))
    case _ => s
  }

  /** The looked-up entry has the marker the sweeper opened; the path is resolved afresh. */
  predicate NameIs(s: State, n: Name, i: AgentId) { n in s.names && s.names[n] == i }

  function Advance(s: State, k: SweeperId, ok: bool, p: SweepPhase): State
    requires k in s.sweepers
  {
    Move(s, k, s.sweepers[k].To(if ok then p else Closing))
  }

  /** Examination of one entry, up to and including the lock. */
  function ExamineStep(s: State, k: SweeperId, name: Name, fault: bool): State
    requires k in s.sweepers
  {
    var w := s.sweepers[k];
    if w.phase == Ready then
      if fault || name !in s.names || s.names[name] !in s.agents || !s.agents[s.names[name]].isPrivate then s
      else Move(s, k, w.(phase := Statted, name := name, dir := s.names[name]))
    else if w.dir !in s.agents then s
    else
      var a := s.agents[w.dir];
      match w.phase
      case Statted => Advance(s, k, !fault && NameIs(s, w.name, w.dir) && a.isPrivate, DirOpen)
      case DirOpen => Advance(s, k, !fault && a.markerMade && a.markerLinked, MarkerOpened)
      case MarkerOpened =>
        if !fault && a.StatValid() then Move(s, k, w.(phase := Fstatted, mtime := a.mtime))
        else Advance(s, k, false, Closing)
      case Fstatted => Advance(s, k, !fault && a.content == Magic, Valid)
      case Valid => Advance(s, k, !(w.now - w.mtime < w.MinimumAge()), Aged)
      case Aged =>
        if fault || a.lock != Free then Advance(s, k, false, Closing)
        else Put(Advance(s, k, true, Locked), w.dir, a.(lock := BySweeper(k)))
      case _ => s
  }

  /** Everything done while the marker lock is held. rmtree resolves the name again. */
  function ReclaimStep(s: State, k: SweeperId, fault: bool): State
    requires k in s.sweepers
  {
    var w := s.sweepers[k];
    if w.dir !in s.agents then s
    else
      var a := s.agents[w.dir];
      match w.phase
      case Locked => Advance(s, k, !fault && a.StatValid(), Refstatted)
      case Refstatted => Advance(s, k, !fault && a.content == Magic, Revalid)
      case Revalid => Advance(s, k, !fault && NameIs(s, w.name, w.dir), SameDir)
      case SameDir => Advance(s, k, !fault && NameIs(s, w.name, w.dir) && a.markerLinked, SameMarker)
      case SameMarker =>
        if fault || w.name !in s.names || s.names[w.name] !in s.agents then Advance(s, k, false, Closing)
        else
          var t := s.names[w.name];
          Put(Advance(s, k, true, Unlinking), t, s.agents[t].(markerLinked := false))
      case Unlinking =>
        if fault || w.name !in s.names || s.names[w.name] !in s.agents || s.agents[s.names[w.name]].markerLinked
        then Advance(s, k, false, Closing)
        else
          var t := s.names[w.name];
          Put(Advance(s, k, true, Removed), t, s.agents[t].(dirLinked := false))
          .(names := Without(s.names, w.name))
      case Removed =>
        var s' := Advance(s, k, false, Closing);
        if fault || w.name in s.names then s' else s'.(reports := s.reports + [w.dir])
      case Closing =>
        var s' := Move(s, k, w.To(Ready));
        if a.lock == BySweeper(k) then Put(s', w.dir, a.(lock := Free)) else s'
      case _ => s
  }

  predicate Examining(p: SweepPhase) {
    p == Ready || p == Statted || p == DirOpen || p == MarkerOpened || p == Fstatted || p == Valid || p == Aged
  }

  function SweeperStep(s: State, l: Label): State {
    match l
    case SweepStart(k, maxAge) =>
      if k in s.sweepers && s.sweepers[k].phase != Off && s.sweepers[k].phase != Ready then s
      else Move(s, k, Sweeper(Ready, s.clock, maxAge, "", 0, 0.0))
    case SweepStep(k, name, fault) =>
      if k !in s.sweepers then s
      else if Examining(s.sweepers[k].phase) then ExamineStep(s, k, name, fault)
      else ReclaimStep(s, k, fault)
    case SweeperDies(k) =>
      if k !in s.sweepers then s
      else
        var w := s.sweepers[k];
        var s' := Move(s, k, w.To(Off));
        if w.dir in s.agents && s.agents[w.dir].lock == BySweeper(k)
        then Put(s', w.dir, s.agents[w.dir].(lock := Free)) else s'
    case _ => s
  }

  function Apply(s: State, l: Label): State {
    if l.SetClock? then s.(clock := l.t)
    else if l.SweepStart? || l.SweepStep? || l.SweeperDies? then SweeperStep(s, l)
    else AgentStep(s, l)
  }

  function Run(labels: seq<Label>): State {
    if labels == [] then INIT else Apply(Run(labels[..|labels| - 1]), labels[|labels| - 1])
  }

  // ---------------------------------------------------------------- invariant

  ghost predicate AgentOk(s: State, i: AgentId)
    requires i in s.agents
  {
    var a := s.agents[i];
    && (a.lock == ByCreator <==> a.HoldsLease())
    && (a.content != Empty ==> a.acquired && (a.phase == Written || a.phase == Dead))
    && (a.HoldsLease() ==> a.acquired)
    && (a.acquired ==> a.HoldsLease() || a.phase == Dead)
    && (a.markerLinked ==> a.markerMade && a.dirLinked)
    && (a.dirLinked <==> NameIs(s, a.name, i))
    && (a.lock.BySweeper? ==> a.content == Magic && Holder(s, a.lock.sweeper, i))
  }

  /** Sweeper k may own the lock of marker i. */
  ghost predicate Holder(s: State, k: SweeperId, i: AgentId) {
    k in s.sweepers && s.sweepers[k].dir == i && !Examining(s.sweepers[k].phase) && s.sweepers[k].phase != Off
  }

  predicate PastStat(p: SweepPhase) { p == Fstatted || p == Valid || p == Aged || UnderLock(p) }

  predicate UnderLock(p: SweepPhase) { !Examining(p) && p != Off && p != Closing }

  predicate Confirmed(p: SweepPhase) { p == SameDir || p == SameMarker || p == Unlinking }

  ghost predicate SweeperOk(s: State, k: SweeperId)
    requires k in s.sweepers
  {
    var w := s.sweepers[k];
    w.phase != Off && w.phase != Ready ==>
      && w.dir in s.agents
      && (PastStat(w.phase) ==> s.agents[w.dir].content == Magic && w.mtime == s.agents[w.dir].mtime)
      && (w.phase == Aged || UnderLock(w.phase) ==> w.now - w.mtime >= w.MinimumAge())
      && (UnderLock(w.phase) ==> s.agents[w.dir].lock == BySweeper(k))
      && (Confirmed(w.phase) ==> NameIs(s, w.name, w.dir))
      && (w.phase == Unlinking ==> !s.agents[w.dir].markerLinked)
      && (w.phase == Removed ==> !s.agents[w.dir].dirLinked && w.dir !in s.reports)
  }

  ghost predicate Distinct(r: seq<AgentId>) { forall p, q :: 0 <= p < q < |r| ==> r[p] != r[q] }

  ghost predicate Inv(s: State) {
    && (forall n :: n in s.names ==> s.names[n] in s.agents && s.agents[s.names[n]].name == n)
    && (forall i :: i in s.agents ==> AgentOk(s, i))
    && (forall k :: k in s.sweepers ==> SweeperOk(s, k))
    && (forall i :: i in s.reports ==> i in s.agents && !s.agents[i].dirLinked)
    && Distinct(s.reports)
  }

  /** The record of agent i changes and nothing else: what has to survive for everyone else. */
  lemma {:induction false} AgentChangeKeepsInv(s: State, i: AgentId, a: Agent)
    requires Inv(s) && i in s.agents && CarriesOver(s.agents[i], a)
    requires a.lock.BySweeper? || s.agents[i].lock.BySweeper? ==> a.lock == s.agents[i].lock
    requires AgentOk(Put(s, i, a), i)
    ensures Inv(Put(s, i, a))
  {
    var s' := Put(s, i, a);
    forall j | j in s'.agents ensures AgentOk(s', j) { assert j != i ==> AgentOk(s, j); }
    forall k | k in s'.sweepers ensures SweeperOk(s', k) { assert SweeperOk(s, k); }
  }

  /** Sweeper k moves on, perhaps changing the directory it is working on. */
  lemma {:induction false} SweepChangeKeepsInv(s: State, k: SweeperId, w: Sweeper, a: Agent)
    requires Inv(s) && k in s.sweepers
    requires w.dir == s.sweepers[k].dir && w.dir in s.agents && CarriesOver(s.agents[w.dir], a)
    requires a.lock != s.agents[w.dir].lock ==>
      || (a.lock == Free && s.agents[w.dir].lock == BySweeper(k))
      || (a.lock == BySweeper(k) && s.agents[w.dir].lock == Free)
    requires AgentOk(Put(Move(s, k, w), w.dir, a), w.dir)
    requires SweeperOk(Put(Move(s, k, w), w.dir, a), k)
    ensures Inv(Put(Move(s, k, w), w.dir, a))
  {
    var s' := Put(Move(s, k, w), w.dir, a);
    forall j | j in s'.agents ensures AgentOk(s', j) { assert AgentOk(s, j); }
    forall h | h in s'.sweepers ensures SweeperOk(s', h) { assert SweeperOk(s, h); }
  }

  ghost predicate CarriesOver(a: Agent, b: Agent) {
    && b.name == a.name && b.dirLinked == a.dirLinked
    && (a.content == Magic ==> b.content == Magic && b.mtime == a.mtime)
    && (b.markerLinked ==> a.markerLinked || a.content != Magic)
  }

  function Rmdir(s: State, i: AgentId): State
    requires i in s.agents
  {
    Put(s, i, s.agents[i].(dirLinked := false)).(names := Without(s.names, s.agents[i].name))
  }

  lemma {:induction false} RmdirKeepsInv(s: State, i: AgentId)
    requires Inv(s) && i in s.agents && s.agents[i].dirLinked && !s.agents[i].markerLinked
    requires forall k :: k in s.sweepers && Confirmed(s.sweepers[k].phase) ==> s.sweepers[k].dir != i
    ensures Inv(Rmdir(s, i))
  {
    var s' := Rmdir(s, i);
    assert AgentOk(s, i);
    forall j | j in s'.agents ensures AgentOk(s', j) { assert AgentOk(s, j); }
    forall k | k in s'.sweepers ensures SweeperOk(s', k) { assert SweeperOk(s, k); }
  }

  lemma {:induction false} AgentStepKeepsInv(s: State, l: Label)
    requires Inv(s) && !l.Spawn? && !l.ExitRmdir?
    requires !l.SetClock? && !l.SweepStart? && !l.SweepStep? && !l.SweeperDies?
    ensures Inv(AgentStep(s, l))
  {
    if AgentStep(s, l) != s {
      var i := l.i;
      assert AgentOk(s, i);
      AgentChangeKeepsInv(s, i, AgentStep(s, l).agents[i]);
    }
  }

  /** What one step of sweeper k does to k itself and to the directory it works on. */
  ghost predicate LocallySound(s: State, k: SweeperId, s': State)
    requires k in s.sweepers && s.sweepers[k].dir in s.agents
  {
    var w := s.sweepers[k];
    && k in s'.sweepers && s'.sweepers[k].dir == w.dir && w.dir in s'.agents
    && var w', a, a' := s'.sweepers[k], s.agents[w.dir], s'.agents[w.dir];
    && s' == Put(Move(s, k, w'), w.dir, a')
    && CarriesOver(a, a')
    && (a'.lock != a.lock ==>
        (a'.lock == Free && a.lock == BySweeper(k)) || (a'.lock == BySweeper(k) && a.lock == Free))
    && AgentOk(s', w.dir) && SweeperOk(s', k)
  }

  lemma {:induction false} ExamineIsLocallySound(s: State, k: SweeperId, name: Name, fault: bool)
    requires k in s.sweepers && Examining(s.sweepers[k].phase) && s.sweepers[k].phase != Ready
    requires SweeperOk(s, k) && AgentOk(s, s.sweepers[k].dir) && s.sweepers[k].phase != Aged
    ensures LocallySound(s, k, ExamineStep(s, k, name, fault))
  {
    var w := s.sweepers[k];
    var s' := ExamineStep(s, k, name, fault);
    assert s' == Put(s', w.dir, s.agents[w.dir]);
  }

  lemma {:induction false} LockIsLocallySound(s: State, k: SweeperId, name: Name, fault: bool)
    requires k in s.sweepers && s.sweepers[k].phase == Aged
    requires SweeperOk(s, k) && AgentOk(s, s.sweepers[k].dir)
    ensures LocallySound(s, k, ExamineStep(s, k, name, fault))
  {
    var w := s.sweepers[k];
    var s' := ExamineStep(s, k, name, fault);
    assert s'.agents[w.dir] == s.agents[w.dir].(lock := s'.agents[w.dir].lock);
  }

  lemma {:induction false} RecheckIsLocallySound(s: State, k: SweeperId, fault: bool)
    requires k in s.sweepers && UnderLock(s.sweepers[k].phase) && s.sweepers[k].phase != Unlinking
    requires SweeperOk(s, k) && AgentOk(s, s.sweepers[k].dir)
    requires s.sweepers[k].phase != SameMarker && s.sweepers[k].phase != Removed
    ensures LocallySound(s, k, ReclaimStep(s, k, fault))
  {
    var s' := ReclaimStep(s, k, fault);
    assert s' == Put(s', s.sweepers[k].dir, s.agents[s.sweepers[k].dir]);
  }

  lemma {:induction false} UnlinkIsLocallySound(s: State, k: SweeperId, fault: bool)
    requires k in s.sweepers && s.sweepers[k].phase == SameMarker
    requires SweeperOk(s, k) && AgentOk(s, s.sweepers[k].dir)
    ensures LocallySound(s, k, ReclaimStep(s, k, fault))
  {
    var s' := ReclaimStep(s, k, fault);
    assert s' == Put(s', s.sweepers[k].dir, s'.agents[s.sweepers[k].dir]);
  }

  lemma {:induction false} CloseIsLocallySound(s: State, k: SweeperId, fault: bool)
    requires k in s.sweepers && s.sweepers[k].phase == Closing
    requires SweeperOk(s, k) && AgentOk(s, s.sweepers[k].dir)
    ensures LocallySound(s, k, ReclaimStep(s, k, fault))
  {
  }

  lemma {:induction false} LocallySoundKeepsInv(s: State, k: SweeperId, s': State)
    requires Inv(s) && k in s.sweepers && s.sweepers[k].dir in s.agents && LocallySound(s, k, s')
    ensures Inv(s')
  {
    SweepChangeKeepsInv(s, k, s'.sweepers[k], s'.agents[s.sweepers[k].dir]);
  }

  /** The sweeper changes phase only. */
  lemma {:induction false} PhaseChangeKeepsInv(s: State, k: SweeperId, p: SweepPhase)
    requires Inv(s) && k in s.sweepers && s.sweepers[k].dir in s.agents && !Examining(p) && p != Off
    requires SweeperOk(Move(s, k, s.sweepers[k].To(p)), k)
    ensures Inv(Move(s, k, s.sweepers[k].To(p)))
  {
    var w := s.sweepers[k].To(p);
    assert AgentOk(s, w.dir);
    MovingIsEnough(s, k, w);
    SweepChangeKeepsInv(s, k, w, s.agents[w.dir]);
  }

  lemma {:induction false} MovingIsEnough(s: State, k: SweeperId, w: Sweeper)
    requires k in s.sweepers && w.dir == s.sweepers[k].dir && w.dir in s.agents && AgentOk(s, w.dir)
    requires !Examining(w.phase) && w.phase != Off
    ensures Put(Move(s, k, w), w.dir, s.agents[w.dir]) == Move(s, k, w) && AgentOk(Move(s, k, w), w.dir)
  {
    assert s.agents[w.dir := s.agents[w.dir]] == s.agents;
  }

  lemma {:induction false} ReadyStepKeepsInv(s: State, k: SweeperId, name: Name, fault: bool)
    requires Inv(s) && k in s.sweepers && s.sweepers[k].phase == Ready
    ensures Inv(ExamineStep(s, k, name, fault))
  {
    var s' := ExamineStep(s, k, name, fault);
    forall j | j in s'.agents ensures AgentOk(s', j) { assert AgentOk(s, j); }
    forall h | h in s'.sweepers ensures SweeperOk(s', h) { assert SweeperOk(s, h); }
  }

  lemma {:induction false} RmdirStepIs(s: State, k: SweeperId)
    requires k in s.sweepers && s.sweepers[k].phase == Unlinking && s.sweepers[k].dir in s.agents
    requires SweeperOk(s, k) && s.agents[s.sweepers[k].dir].name == s.sweepers[k].name
    ensures ReclaimStep(s, k, true) == Move(s, k, s.sweepers[k].To(Closing))
    ensures ReclaimStep(s, k, false)
         == Move(Rmdir(Move(s, k, s.sweepers[k].To(Closing)), s.sweepers[k].dir), k, s.sweepers[k].To(Removed))
  {
    var w := s.sweepers[k];
    var s2 := Rmdir(Move(s, k, w.To(Closing)), w.dir);
    assert s.sweepers[k := w.To(Closing)][k := w.To(Removed)] == s.sweepers[k := w.To(Removed)];
  }

  lemma {:induction false} UnlinkingStepKeepsInv(s: State, k: SweeperId, fault: bool)
    requires Inv(s) && k in s.sweepers && s.sweepers[k].phase == Unlinking
    ensures Inv(ReclaimStep(s, k, fault))
  {
    assert SweeperOk(s, k);
    RmdirStepIs(s, k);
    PhaseChangeKeepsInv(s, k, Closing);
    if !fault {
      SoleRemover(s, k);
      assert AgentOk(s, s.sweepers[k].dir);
      LastRmdirKeepsInv(Move(s, k, s.sweepers[k].To(Closing)), k);
      assert Move(s, k, s.sweepers[k].To(Closing)).sweepers[k].To(Removed) == s.sweepers[k].To(Removed);
    }
  }

  /** Whoever is past the last check owns the lock, so there is only one. */
  lemma {:induction false} SoleRemover(s: State, k: SweeperId)
    requires Inv(s) && k in s.sweepers && UnderLock(s.sweepers[k].phase)
    ensures forall h :: h in s.sweepers && h != k && UnderLock(s.sweepers[h].phase)
                        ==> s.sweepers[h].dir != s.sweepers[k].dir
  {
    assert SweeperOk(s, k);
    forall h | h in s.sweepers && h != k && UnderLock(s.sweepers[h].phase)
      ensures s.sweepers[h].dir != s.sweepers[k].dir
    {
      assert SweeperOk(s, h);
    }
  }

  /** The directory of sweeper k can go: its creator is dead, and nobody else is about to remove it. */
  ghost predicate MayGo(s: State, k: SweeperId) {
    && k in s.sweepers && s.sweepers[k].phase == Closing && s.sweepers[k].dir in s.agents
    && var w, a := s.sweepers[k], s.agents[s.sweepers[k].dir];
    && a.dirLinked && !a.markerLinked && a.lock == BySweeper(k) && a.content == Magic && w.mtime == a.mtime
    && w.now - w.mtime >= w.MinimumAge() && w.dir !in s.reports
    && forall h :: h in s.sweepers && h != k && UnderLock(s.sweepers[h].phase) ==> s.sweepers[h].dir != w.dir
  }

  lemma {:induction false} GoneIsSound(s: State, k: SweeperId)
    requires MayGo(s, k)
    ensures var t := Rmdir(s, s.sweepers[k].dir); SweeperOk(Move(t, k, t.sweepers[k].To(Removed)), k)
  {
  }

  lemma {:induction false} OnlyOneConfirmed(s: State, k: SweeperId)
    requires MayGo(s, k)
    ensures forall h :: h in s.sweepers && Confirmed(s.sweepers[h].phase) ==> s.sweepers[h].dir != s.sweepers[k].dir
  {
  }

  lemma {:induction false} LastRmdirKeepsInv(s: State, k: SweeperId)
    requires MayGo(s, k) && Inv(s)
    ensures Inv(Move(Rmdir(s, s.sweepers[k].dir), k, s.sweepers[k].To(Removed)))
  {
    OnlyOneConfirmed(s, k);
    RmdirKeepsInv(s, s.sweepers[k].dir);
    GoneIsSound(s, k);
    PhaseChangeKeepsInv(Rmdir(s, s.sweepers[k].dir), k, Removed);
  }

  lemma {:induction false} ReportKeepsInv(s1: State, k: SweeperId)
    requires Inv(s1) && k in s1.sweepers && s1.sweepers[k].phase == Closing
    requires s1.sweepers[k].dir in s1.agents && !s1.agents[s1.sweepers[k].dir].dirLinked
    requires s1.sweepers[k].dir !in s1.reports && s1.agents[s1.sweepers[k].dir].lock == BySweeper(k)
    ensures Inv(s1.(reports := s1.reports + [s1.sweepers[k].dir]))
  {
    var s' := s1.(reports := s1.reports + [s1.sweepers[k].dir]);
    forall j | j in s'.agents ensures AgentOk(s', j) {
      assert AgentOk(s1, j);
      ReportsLeaveAgents(s1, s'.reports, j);
    }
    forall h | h in s'.sweepers ensures SweeperOk(s', h) {
      assert SweeperOk(s1, h) && AgentOk(s1, s1.sweepers[k].dir);
      ReportsLeaveSweepers(s1, k, h);
    }
  }

  lemma {:induction false} ReportsLeaveAgents(s: State, r: seq<AgentId>, j: AgentId)
    requires j in s.agents && AgentOk(s, j)
    ensures AgentOk(s.(reports := r), j)
  {
  }

  /** The sweeper that reports owns the lock, so no other can be about to report the same. */
  lemma {:induction false} ReportsLeaveSweepers(s: State, k: SweeperId, h: SweeperId)
    requires k in s.sweepers && h in s.sweepers && SweeperOk(s, h) && s.sweepers[k].phase == Closing
    requires s.sweepers[k].dir in s.agents && s.agents[s.sweepers[k].dir].lock == BySweeper(k)
    ensures SweeperOk(s.(reports := s.reports + [s.sweepers[k].dir]), h)
  {
  }

  lemma {:induction false} RemovedStepIs(s: State, k: SweeperId, fault: bool)
    requires k in s.sweepers && s.sweepers[k].phase == Removed && s.sweepers[k].dir in s.agents
    ensures var s1 := Move(s, k, s.sweepers[k].To(Closing));
            || ReclaimStep(s, k, fault) == s1
            || ReclaimStep(s, k, fault) == s1.(reports := s1.reports + [s.sweepers[k].dir])
  {
  }

  lemma {:induction false} RemovedStepKeepsInv(s: State, k: SweeperId, fault: bool)
    requires Inv(s) && k in s.sweepers && s.sweepers[k].phase == Removed
    ensures Inv(ReclaimStep(s, k, fault))
  {
    assert SweeperOk(s, k);
    RemovedStepIs(s, k, fault);
    PhaseChangeKeepsInv(s, k, Closing);
    RemovedThenReported(s, k);
  }

  lemma {:induction false} RemovedThenReported(s: State, k: SweeperId)
    requires k in s.sweepers && s.sweepers[k].phase == Removed && SweeperOk(s, k)
    requires Inv(Move(s, k, s.sweepers[k].To(Closing)))
    ensures var s1 := Move(s, k, s.sweepers[k].To(Closing)); Inv(s1.(reports := s1.reports + [s.sweepers[k].dir]))
  {
    ReportKeepsInv(Move(s, k, s.sweepers[k].To(Closing)), k);
  }

  lemma {:induction false} SweepStepKeepsInv(s: State, l: Label)
    requires Inv(s) && l.SweepStep?
    ensures Inv(Apply(s, l))
  {
    var k := l.k;
    if k in s.sweepers && s.sweepers[k].phase != Off {
      var p, s' := s.sweepers[k].phase, Apply(s, l);
      assert SweeperOk(s, k);
      if p == Ready {
        ReadyStepKeepsInv(s, k, l.name, l.fault);
      } else if p == Unlinking {
        UnlinkingStepKeepsInv(s, k, l.fault);
      } else if p == Removed {
        RemovedStepKeepsInv(s, k, l.fault);
      } else {
        assert AgentOk(s, s.sweepers[k].dir);
        if p == Aged {
          LockIsLocallySound(s, k, l.name, l.fault);
        } else if Examining(p) {
          ExamineIsLocallySound(s, k, l.name, l.fault);
        } else if p == Closing {
          CloseIsLocallySound(s, k, l.fault);
        } else if p == SameMarker {
          UnlinkIsLocallySound(s, k, l.fault);
        } else {
          RecheckIsLocallySound(s, k, l.fault);
        }
        LocallySoundKeepsInv(s, k, s');
      }
    }
  }

  lemma {:induction false} SpawnKeepsInv(s: State, l: Label)
    requires Inv(s) && l.Spawn?
    ensures Inv(Apply(s, l))
  {
    var s' := Apply(s, l);
    forall j | j in s'.agents ensures AgentOk(s', j) { if j != l.i || s' == s { assert AgentOk(s, j); } }
    forall h | h in s'.sweepers ensures SweeperOk(s', h) { assert SweeperOk(s, h); }
  }

  /** No sweeper can be removing a directory whose creator is alive. */
  lemma {:induction false} ConfirmedMeansDead(s: State, i: AgentId)
    requires Inv(s) && i in s.agents && s.agents[i].phase != Dead
    ensures forall k :: k in s.sweepers && UnderLock(s.sweepers[k].phase) ==> s.sweepers[k].dir != i
  {
    assert AgentOk(s, i);
    forall k | k in s.sweepers && UnderLock(s.sweepers[k].phase) ensures s.sweepers[k].dir != i {
      assert SweeperOk(s, k);
    }
  }

  lemma {:induction false} ExitRmdirKeepsInv(s: State, l: Label)
    requires Inv(s) && l.ExitRmdir?
    ensures Inv(Apply(s, l))
  {
    if Apply(s, l) != s {
      ConfirmedMeansDead(s, l.i);
      RmdirKeepsInv(s, l.i);
    }
  }

  /** A sweeper that owns no lock may be replaced. */
  lemma {:induction false} IdleSweeperKeepsInv(s: State, k: SweeperId, w: Sweeper)
    requires Inv(s) && (w.phase == Off || w.phase == Ready)
    requires forall i :: i in s.agents ==> s.agents[i].lock != BySweeper(k)
    ensures Inv(Move(s, k, w))
  {
    var s' := Move(s, k, w);
    forall j | j in s'.agents ensures AgentOk(s', j) { assert AgentOk(s, j); }
    forall h | h in s'.sweepers ensures SweeperOk(s', h) { if h != k { assert SweeperOk(s, h); } }
  }

  lemma {:induction false} SweepStartKeepsInv(s: State, l: Label)
    requires Inv(s) && l.SweepStart?
    ensures Inv(Apply(s, l))
  {
    if Apply(s, l) != s {
      forall i | i in s.agents ensures s.agents[i].lock != BySweeper(l.k) { assert AgentOk(s, i); }
      IdleSweeperKeepsInv(s, l.k, Apply(s, l).sweepers[l.k]);
    }
  }

  /** Closing gives the lock back; death is closing without further ado. */
  lemma {:induction false} DeathKeepsInv(s: State, l: Label)
    requires Inv(s) && l.SweeperDies?
    ensures Inv(Apply(s, l))
  {
    var k := l.k;
    if k in s.sweepers {
      var w := s.sweepers[k];
      assert SweeperOk(s, k);
      if w.dir in s.agents && s.agents[w.dir].lock == BySweeper(k) {
        assert AgentOk(s, w.dir);
        PhaseChangeKeepsInv(s, k, Closing);
        var s1 := Move(s, k, w.To(Closing));
        CloseIsLocallySound(s1, k, false);
        LocallySoundKeepsInv(s1, k, ReclaimStep(s1, k, false));
        forall i | i in s.agents && i != w.dir ensures s.agents[i].lock != BySweeper(k) { assert AgentOk(s, i); }
        DieAfterClose(s, k, w);
      } else {
        forall i | i in s.agents ensures s.agents[i].lock != BySweeper(k) { assert AgentOk(s, i); }
        IdleSweeperKeepsInv(s, k, w.To(Off));
      }
    }
  }

  lemma {:induction false} DieAfterClose(s: State, k: SweeperId, w: Sweeper)
    requires k in s.sweepers && w == s.sweepers[k]
    requires w.dir in s.agents && s.agents[w.dir].lock == BySweeper(k)
    requires forall i :: i in s.agents && i != w.dir ==> s.agents[i].lock != BySweeper(k)
    requires Inv(ReclaimStep(Move(s, k, w.To(Closing)), k, false))
    ensures Inv(Apply(s, SweeperDies(k)))
  {
    DeathIsClosing(s, k, w);
    IdleSweeperKeepsInv(ReclaimStep(Move(s, k, w.To(Closing)), k, false), k, w.To(Off));
  }

  lemma {:induction false} DeathIsClosing(s: State, k: SweeperId, w: Sweeper)
    requires k in s.sweepers && w == s.sweepers[k]
    requires w.dir in s.agents && s.agents[w.dir].lock == BySweeper(k)
    ensures var s2 := ReclaimStep(Move(s, k, w.To(Closing)), k, false);
            && s2.agents == s.agents[w.dir := s.agents[w.dir].(lock := Free)]
            && Move(s2, k, w.To(Off)) == Apply(s, SweeperDies(k))
  {
  }

  lemma {:induction false} ApplyKeepsInv(s: State, l: Label)
    requires Inv(s)
    ensures Inv(Apply(s, l))
  {
    match l
    case SetClock(t) =>
      var s' := Apply(s, l);
      forall j | j in s'.agents ensures AgentOk(s', j) { assert AgentOk(s, j); }
      forall h | h in s'.sweepers ensures SweeperOk(s', h) { assert SweeperOk(s, h); }
    case Spawn(_, _, _) => SpawnKeepsInv(s, l);
    case ExitRmdir(_) => ExitRmdirKeepsInv(s, l);
    case SweepStep(_, _, _) => SweepStepKeepsInv(s, l);
    case SweepStart(_, _) => SweepStartKeepsInv(s, l);
    case SweeperDies(_) => DeathKeepsInv(s, l);
    case _ => AgentStepKeepsInv(s, l);
  }

  lemma {:induction false} RunKeepsInv(labels: seq<Label>)
    ensures Inv(Run(labels))
  {
    if labels != [] {
      var earlier := labels[..|labels| - 1];
      RunKeepsInv(earlier);
      ApplyKeepsInv(Run(earlier), labels[|labels| - 1]);
    }
  }

  // ---------------------------------------------------------------- what holds in every run

  predicate LosesLink(s: State, l: Label, i: AgentId) {
    && i in s.agents && i in Apply(s, l).agents
    && var a, a' := s.agents[i], Apply(s, l).agents[i];
    ((a.dirLinked && !a'.dirLinked) || (a.markerLinked && !a'.markerLinked))
  }

  lemma {:induction false} OnlyTheConfirmedGoes(s: State, l: Label, i: AgentId)
    requires l.SweepStep? && l.k in s.sweepers && SweeperOk(s, l.k) && LosesLink(s, l, i)
    ensures UnderLock(s.sweepers[l.k].phase) && s.sweepers[l.k].dir == i
  {
  }

  /** Whatever a sweeper unlinks belongs to a creator that locked its lease, wrote the magic line and
      is gone, and is older than both the floor and the caller's own limit by the sweep's reading. */
  lemma {:induction false} SweepersRemoveOnlyStaleOrphans(labels: seq<Label>, l: Label, i: AgentId)
    requires l.SweepStep?
    ensures var s := Run(labels);
      LosesLink(s, l, i) ==>
        && s.agents[i].phase == Dead && s.agents[i].acquired && s.agents[i].content == Magic
        && l.k in s.sweepers && s.agents[i].lock == BySweeper(l.k)
        && s.sweepers[l.k].now - s.agents[i].mtime >= RETENTION_FLOOR
        && s.sweepers[l.k].now - s.agents[i].mtime >= s.sweepers[l.k].maxAge
  {
    RunKeepsInv(labels);
    var s := Run(labels);
    if LosesLink(s, l, i) {
      OnlyTheConfirmedGoes(s, l, i);
      assert SweeperOk(s, l.k) && AgentOk(s, i);
    }
  }

  lemma {:induction false} OthersKeepTheLinks(s: State, l: Label, i: AgentId)
    requires !l.SweepStep?
    ensures LosesLink(s, l, i) ==> l == ExitUnlink(i) || l == ExitRmdir(i)
  {
  }

  /** As long as the creator lives, only the creator itself can remove its directory or marker. */
  lemma {:induction false} LivingCreatorsAreProtected(labels: seq<Label>, l: Label, i: AgentId)
    ensures LosesLink(Run(labels), l, i) && Run(labels).agents[i].phase != Dead ==>
              l == ExitUnlink(i) || l == ExitRmdir(i)
  {
    if l.SweepStep? {
      SweepersRemoveOnlyStaleOrphans(labels, l, i);
    } else {
      OthersKeepTheLinks(Run(labels), l, i);
    }
  }

  lemma {:induction false} EachDirectoryIsReportedOnce(labels: seq<Label>)
    ensures Distinct(Run(labels).reports)
    ensures forall i :: i in Run(labels).reports ==>
              i in Run(labels).agents && !NameIs(Run(labels), Run(labels).agents[i].name, i)
  {
    RunKeepsInv(labels);
    forall i | i in Run(labels).reports
      ensures i in Run(labels).agents && !NameIs(Run(labels), Run(labels).agents[i].name, i)
    {
      assert AgentOk(Run(labels), i);
    }
  }

  lemma {:induction false} SweepersLockOnlyWrittenMarkers(labels: seq<Label>, i: AgentId)
    requires i in Run(labels).agents && Run(labels).agents[i].lock.BySweeper?
    ensures Run(labels).agents[i].acquired && Run(labels).agents[i].content == Magic
    ensures Run(labels).agents[i].phase == Dead
  {
    RunKeepsInv(labels);
    assert AgentOk(Run(labels), i);
  }

  /** A creator that reaches flock always gets the lock: no sweeper can be in its way. */
  lemma {:induction false} CreatorsAlwaysGetTheirLock(labels: seq<Label>, i: AgentId)
    requires i in Run(labels).agents && Run(labels).agents[i].phase == MarkerOpen
    ensures Apply(Run(labels), Flock(i)).agents[i].HoldsLease()
  {
    RunKeepsInv(labels);
    assert AgentOk(Run(labels), i);
  }
}
