/** Several driving sessions over one directory of halt records (make_durable_halt_poll,
    _durable_halt_poll_for and the mount-time check of _build_coexistence_guard). A poll is not atomic:
    each file-system call of it is a step of its own, and anything may happen between two of them. */
module HaltSessions {
  import opened Wrappers
  import opened Exclusion
  import opened TargetBinding
  import opened GuardSpec
  import opened GuardRuns
  import opened HaltStore

  datatype Phase =
    | Idle
    | Began                             // before_event entered, nothing read yet
    | PrimaryStat | PrimaryThere        // stat, and load_halt's exists, have found the file
    | LegacyNext | LegacyStat | LegacyThere
    | Polled(result: Option<Snapshot>)
    | PollRaised                        // an exception came through

  datatype Session = Session(
    key: string,
    primary: string,                    // the record file of this channel's key
    legacy: Option<string>,             // and of its pre-migration key, for a remote target
    config: Config,
    guard: GuardState,
    phase: Phase,
    standing: set<string>,              // own record files there since the current call began
    missed: set<string>)                // and those it has looked for and not found
  {
    function Own(): set<string> { {primary} + if legacy.Some? then {legacy.value} else {} }

    /** The primary poll has reported nothing. */
    function AfterPrimary(): Session { this.(phase := if legacy.Some? then LegacyNext else Polled(None)) }

    function After(l: Loaded): Session {
      match l
      case Absent => this.(phase := Polled(None))
      case Halt(s) => this.(phase := Polled(Some(s)))
      case Raises => this.(phase := PollRaised)
    }
  }

  datatype World = World(files: Store, sessions: seq<Session>)

  datatype Label =
    | Mount(backend: Backend, config: Config, first: Access, second: Access)
    | Begin(i: nat)
    | PollStep(i: nat, a: Access)
    | Finish(i: nat, coord: Option<(int, int)>, r: Reading)
    | Other(i: nat, op: Op)                // anything else the session does with its guard
    | RecordOwn(i: nat, s: Snapshot, d: Details)   // a halted session, or its overlay's Cancel button
    | Write(file: string, text: Text)      // some other process, sane or not
    | Remove(file: string)

  /** Both keys are tried; the primary one wins. */
  function LoadAtMount(files: Store, primary: string, legacy: Option<string>, first: Access, second: Access): Loaded {
    var r := Load(files, primary, first);
    if r == Absent && legacy.Some? then Load(files, legacy.value, second) else r
  }

  function MountSession(files: Store, b: Backend, c: Config, first: Access, second: Access): Option<Session> {
    var primary := SafeFilename(HaltKey(b));
    var legacy := if LegacyKey(b).Some? then Some(SafeFilename(LegacyKey(b).value)) else None;
    var g := Fresh(c);
    match LoadAtMount(files, primary, legacy, first, second)
    case Raises => None
    case Halt(s) => Some(Session(HaltKey(b), primary, legacy, c, g.Seed(s), Idle, {}, {}))
    case Absent => Some(Session(HaltKey(b), primary, legacy, c, g, Idle, {}, {}))
  }

  /** The file the next step of the call looks for: with stat, which tells a missing file from a path that
      does not resolve, or with exists, which does not. */
  function Stats(x: Session): Option<string> {
    match x.phase
    case Began => if x.guard.halted || !x.config.hasPoll then None else Some(x.primary)
    case LegacyNext => x.legacy
    case _ => None
  }

  function Exists(x: Session): Option<string> {
    match x.phase case PrimaryStat => Some(x.primary) case LegacyStat => x.legacy case _ => None
  }

  function Reads(x: Session): Option<string> {
    match x.phase case PrimaryThere => Some(x.primary) case LegacyThere => x.legacy case _ => None
  }

  function Looks(x: Session): Option<string> { if Stats(x).Some? then Stats(x) else Exists(x) }

  predicate LookRaises(files: Store, x: Session, a: Access) {
    a.blocked || (Stats(x).Some? && a.unresolved && Stats(x).value !in files)
  }

  /** The phase after a look that did not raise. */
  function Onwards(x: Session, there: bool): Session {
    match x.phase
    case Began => if there then x.(phase := PrimaryStat) else x.AfterPrimary()
    case PrimaryStat => if there then x.(phase := PrimaryThere) else x.AfterPrimary()
    case LegacyNext => x.(phase := if there then LegacyStat else Polled(None))
    case LegacyStat => x.(phase := if there then LegacyThere else Polled(None))
    case _ => x
  }

  /** One file-system call of the poll. */
  function Poll1(files: Store, x: Session, a: Access): Session {
    if Looks(x).Some? then
      if LookRaises(files, x, a) then x.(phase := PollRaised)
      else
        var file := Looks(x).value;
        Onwards(if file in files then x else x.(missed := x.missed + {file}), file in files)
    else if Reads(x).Some? then x.After(Read(files, Reads(x).value, a))
    else if x.phase == Began then x.(phase := Polled(None))
    else x
  }

  function FinishSession(x: Session, coord: Option<(int, int)>, r: Reading): Session {
    match x.phase
    case Polled(result) =>
      var g := BeforeEvent(x.config, x.guard, coord, r.(poll := result)).0;
      x.(phase := Idle, standing := {}, missed := {}, guard := g)
    case PollRaised => x.(phase := Idle, standing := {}, missed := {})
    case _ => x
  }

  function Put(w: World, i: nat, x: Session): World
    requires i < |w.sessions|
  {
    w.(sessions := w.sessions[i := x])
  }

  ghost function Apply(w: World, l: Label): World {
    match l
    case Mount(b, c, first, second) =>
      var x := MountSession(w.files, b, c, first, second);
      if x.Some? && c.hasPoll then w.(sessions := w.sessions + [x.value]) else w
    case Begin(i) =>
      if i >= |w.sessions| || w.sessions[i].phase != Idle then w
      else
        var x := w.sessions[i];
        Put(w, i, x.(phase := Began, standing := (set f | f in x.Own() && f in w.files), missed := {}))
    case PollStep(i, a) => if i >= |w.sessions| then w else Put(w, i, Poll1(w.files, w.sessions[i], a))
    case Finish(i, coord, r) => if i >= |w.sessions| then w else Put(w, i, FinishSession(w.sessions[i], coord, r))
    case Other(i, op) =>
      if i >= |w.sessions| || w.sessions[i].phase != Idle || op.Event? || (op.SetZone? && !op.zone.Valid()) then w
      else
        var x := w.sessions[i];
        Put(w, i, x.(guard := Do(x.config, x.guard, op).0))
    case RecordOwn(i, s, d) =>
      if i >= |w.sessions| then w
      else w.(files := w.files[w.sessions[i].primary := RecordOf(w.sessions[i].key, s, d)])
    case Write(file, text) => w.(files := w.files[file := text])
    case Remove(file) =>
      World(w.files - {file}, seq(|w.sessions|, i requires 0 <= i < |w.sessions| =>
        w.sessions[i].(standing := w.sessions[i].standing - {file})))
  }

  ghost function RunWorld(labels: seq<Label>): World {
    if labels == [] then World(map[], []) else Apply(RunWorld(labels[..|labels| - 1]), labels[|labels| - 1])
  }

  /** Finishing the call in progress would return normally. */
  predicate Passes(x: Session, coord: Option<(int, int)>, r: Reading) {
    x.phase.Polled? && BeforeEvent(x.config, x.guard, coord, r.(poll := x.phase.result)).1 == Passed
  }

  // ---------------------------------------------------------------- invariant

  ghost predicate SessionOk(files: Store, x: Session) {
    && Inv(x.config, x.guard) && x.config.hasPoll && x.legacy != Some(x.primary)
    && (forall f :: f in x.standing ==> f in x.Own() && f in files && f !in x.missed)
    && MissedOk(x)
  }

  /** What the call has missed so far, by where it is. */
  ghost predicate MissedOk(x: Session) {
    match x.phase
    case Idle => x.missed == {}
    case Began => x.missed == {}
    case PrimaryStat => !x.guard.halted && x.missed == {}
    case PrimaryThere => !x.guard.halted && x.missed == {}
    case Polled(result) =>
      if x.guard.halted then result == None else x.missed <= x.Own() && (result == None <==> x.missed == x.Own())
    case PollRaised => !x.guard.halted && x.missed < x.Own()
    case _ => !x.guard.halted && x.legacy.Some? && x.missed == {x.primary}
  }

  ghost predicate WorldOk(w: World) { forall i :: 0 <= i < |w.sessions| ==> SessionOk(w.files, w.sessions[i]) }

  lemma ReadsAlwaysAnswer(files: Store, file: string, a: Access)
    ensures Read(files, file, a) != Absent
  {
  }

  lemma {:induction false} LookKeepsOk(files: Store, x: Session, a: Access)
    requires SessionOk(files, x) && Looks(x).Some?
    ensures SessionOk(files, Poll1(files, x, a))
  {
  }

  lemma {:induction false} AnswerKeepsOk(files: Store, x: Session, l: Loaded)
    requires SessionOk(files, x) && Reads(x).Some? && l != Absent
    ensures SessionOk(files, x.After(l))
  {
  }

  lemma {:induction false} PollKeepsOk(files: Store, x: Session, a: Access)
    requires SessionOk(files, x)
    ensures SessionOk(files, Poll1(files, x, a))
  {
    if Looks(x).Some? {
      LookKeepsOk(files, x, a);
    } else if Reads(x).Some? {
      ReadsAlwaysAnswer(files, Reads(x).value, a);
      AnswerKeepsOk(files, x, Read(files, Reads(x).value, a));
    }
  }

  lemma {:induction false} FinishKeepsOk(files: Store, x: Session, coord: Option<(int, int)>, r: Reading)
    requires SessionOk(files, x)
    ensures SessionOk(files, FinishSession(x, coord, r))
    ensures x.guard.halted ==> FinishSession(x, coord, r).guard.halted
  {
    if x.phase.Polled? { EventKeepsInv(x.config, x.guard, coord, r.(poll := x.phase.result)); }
  }

  /** One session changes and the files stay. */
  lemma {:induction false} PutKeepsOk(w: World, i: nat, x: Session)
    requires WorldOk(w) && i < |w.sessions| && SessionOk(w.files, x)
    ensures WorldOk(Put(w, i, x))
  {
  }

  predicate MovesSession(w: World, l: Label) {
    (l.PollStep? || l.Finish? || l.Other? || l.Begin?) && l.i < |w.sessions|
  }

  lemma {:induction false} SessionStepIsOk(w: World, l: Label)
    requires MovesSession(w, l) && SessionOk(w.files, w.sessions[l.i])
    ensures l.i < |Apply(w, l).sessions| && Apply(w, l) == Put(w, l.i, Apply(w, l).sessions[l.i])
    ensures SessionOk(w.files, Apply(w, l).sessions[l.i])
    ensures w.sessions[l.i].guard.halted ==> Apply(w, l).sessions[l.i].guard.halted
  {
    var x := w.sessions[l.i];
    if l.PollStep? {
      PollKeepsOk(w.files, x, l.a);
    } else if l.Finish? {
      FinishKeepsOk(w.files, x, l.coord, l.r);
    } else if l.Other? && x.phase == Idle && !l.op.Event? && (l.op.SetZone? ==> l.op.zone.Valid()) {
      DoKeepsInv(x.config, x.guard, l.op);
    }
  }

  lemma {:induction false} MountKeepsOk(w: World, b: Backend, c: Config, first: Access, second: Access)
    requires WorldOk(w)
    ensures var x := MountSession(w.files, b, c, first, second);
      x.Some? && c.hasPoll ==> SessionOk(w.files, x.value) && WorldOk(w.(sessions := w.sessions + [x.value]))
  {
    if LegacyKey(b).Some? { OwnRecordsDiffer(b); }
    var x := MountSession(w.files, b, c, first, second);
    if x.Some? && c.hasPoll { MountedIsOk(w.files, x.value, b, c); }
  }

  lemma {:induction false} MountedIsOk(files: Store, x: Session, b: Backend, c: Config)
    requires x.phase == Idle && x.standing == {} && x.missed == {}
    requires x.legacy != Some(x.primary) && x.config == c && c.hasPoll
    requires x.guard == Fresh(c) || exists s :: x.guard == Fresh(c).Seed(s)
    ensures SessionOk(files, x)
  {
  }

  lemma {:induction false} FilesKeepOk(w: World, l: Label)
    requires WorldOk(w) && !MovesSession(w, l) && !l.Mount?
    ensures WorldOk(Apply(w, l)) && |Apply(w, l).sessions| == |w.sessions|
    ensures forall i :: 0 <= i < |w.sessions| ==> Apply(w, l).sessions[i].guard == w.sessions[i].guard
  {
    var w' := Apply(w, l);
    forall i | 0 <= i < |w'.sessions| ensures SessionOk(w'.files, w'.sessions[i]) {
      assert SessionOk(w.files, w.sessions[i]);
    }
  }

  lemma {:induction false} ApplyKeepsOk(w: World, l: Label)
    requires WorldOk(w)
    ensures WorldOk(Apply(w, l)) && |Apply(w, l).sessions| >= |w.sessions|
    ensures forall i :: 0 <= i < |w.sessions| && w.sessions[i].guard.halted ==> Apply(w, l).sessions[i].guard.halted
  {
    if MovesSession(w, l) {
      SessionStepIsOk(w, l);
      PutKeepsOk(w, l.i, Apply(w, l).sessions[l.i]);
    } else if l.Mount? {
      MountKeepsOk(w, l.backend, l.config, l.first, l.second);
    } else {
      FilesKeepOk(w, l);
    }
  }

  lemma {:induction false} RunIsOk(labels: seq<Label>)
    ensures WorldOk(RunWorld(labels))
  {
    if labels != [] {
      RunIsOk(labels[..|labels| - 1]);
      ApplyKeepsOk(RunWorld(labels[..|labels| - 1]), labels[|labels| - 1]);
    }
  }

  // ---------------------------------------------------------------- what holds in every run

  /** A call that began while a record of its own stood, and whose record has not been removed since, is
      refused. It also latches the guard, unless the record it read overflowed. */
  lemma {:induction false} StandingRecordsRefuse(labels: seq<Label>, i: nat, coord: Option<(int, int)>, r: Reading)
    requires i < |RunWorld(labels).sessions| && RunWorld(labels).sessions[i].standing != {}
    ensures var x := RunWorld(labels).sessions[i];
      && !Passes(x, coord, r)
      && (x.phase.Polled? ==> FinishSession(x, coord, r).guard.halted)
  {
    RunIsOk(labels);
    var x := RunWorld(labels).sessions[i];
    if x.phase.Polled? {
      ClassifyMeaning(x.config, x.guard, r.(poll := x.phase.result));
      EventKeepsInv(x.config, x.guard, coord, r.(poll := x.phase.result));
      PollLatches(x.config, x.guard, coord, r.(poll := x.phase.result));
    }
  }

  /** A reported record latches the guard before anything else is looked at. */
  lemma {:induction false} PollLatches(c: Config, g: GuardState, coord: Option<(int, int)>, r: Reading)
    requires Inv(c, g) && (g.halted || (c.hasPoll && r.poll.Some?))
    ensures BeforeEvent(c, g, coord, r).0.halted && BeforeEvent(c, g, coord, r).1 != Passed
  {
    EventKeepsInv(c, Poll(c, g, r.poll), coord, r);
    ClassifyMeaning(c, g, r);
  }

  /** Which files a run of labels removes. */
  ghost predicate Removes(labels: seq<Label>, f: string) { Remove(f) in labels }

  /** No step of this session's own call among the labels. */
  ghost predicate StaysInCall(labels: seq<Label>, i: nat) {
    forall k :: 0 <= k < |labels| ==> !(labels[k].Finish? && labels[k].i == i)
  }

  lemma {:induction false} StepKeepsStanding(w: World, l: Label, i: nat, f: string)
    requires i < |w.sessions| && w.sessions[i].phase != Idle && f in w.sessions[i].standing
    requires l != Remove(f) && !(l.Finish? && l.i == i)
    ensures i < |Apply(w, l).sessions| && Apply(w, l).sessions[i].phase != Idle
    ensures f in Apply(w, l).sessions[i].standing
  {
  }

  lemma {:induction false} RecordsKeepStanding(w: World, more: seq<Label>, i: nat, f: string)
    requires i < |w.sessions| && w.sessions[i].phase != Idle && f in w.sessions[i].standing
    requires !Removes(more, f) && StaysInCall(more, i)
    ensures var w' := RunFrom(w, more);
      i < |w'.sessions| && w'.sessions[i].phase != Idle && f in w'.sessions[i].standing
  {
    if more != [] {
      var last := |more| - 1;
      assert forall k :: 0 <= k < last ==> more[..last][k] == more[k];
      RecordsKeepStanding(w, more[..last], i, f);
      assert more[last] in more;
      StepKeepsStanding(RunFrom(w, more[..last]), more[last], i, f);
    }
  }

  ghost function RunFrom(w: World, labels: seq<Label>): World {
    if labels == [] then w else Apply(RunFrom(w, labels[..|labels| - 1]), labels[|labels| - 1])
  }

  lemma {:induction false} RunSplits(labels: seq<Label>, more: seq<Label>)
    ensures RunWorld(labels + more) == RunFrom(RunWorld(labels), more)
  {
    if more == [] {
      assert labels + more == labels;
    } else {
      var last := |more| - 1;
      assert (labels + more)[..|labels + more| - 1] == labels + more[..last];
      RunSplits(labels, more[..last]);
    }
  }

  /** The incident the records exist for. One session is halted and its record written; any other session
      of the same channel that afterwards begins an event is refused, whatever everybody does meanwhile
      short of removing the record. */
  lemma {:induction false} HaltReachesOtherSessions(
    labels: seq<Label>, a: nat, s: Snapshot, d: Details, b: nat, more: seq<Label>,
    coord: Option<(int, int)>, r: Reading)
    requires a < |RunWorld(labels).sessions| && b < |RunWorld(labels).sessions|
    requires RunWorld(labels).sessions[a].primary in RunWorld(labels).sessions[b].Own()
    requires RunWorld(labels).sessions[b].phase == Idle
    requires !Removes(more, RunWorld(labels).sessions[a].primary) && StaysInCall(more, b)
    ensures var w := RunWorld(labels + [RecordOwn(a, s, d), Begin(b)] + more);
      && b < |w.sessions| && !Passes(w.sessions[b], coord, r)
      && (w.sessions[b].phase.Polled? ==> FinishSession(w.sessions[b], coord, r).guard.halted)
  {
    var start := labels + [RecordOwn(a, s, d), Begin(b)];
    assert start[..|start| - 1] == labels + [RecordOwn(a, s, d)];
    assert (labels + [RecordOwn(a, s, d)])[..|labels|] == labels;
    var w := RunWorld(start);
    assert RunWorld(labels + [RecordOwn(a, s, d)]) == Apply(RunWorld(labels), RecordOwn(a, s, d));
    assert w == Apply(RunWorld(labels + [RecordOwn(a, s, d)]), Begin(b));
    RecordsKeepStanding(w, more, b, RunWorld(labels).sessions[a].primary);
    RunSplits(start, more);
    StandingRecordsRefuse(start + more, b, coord, r);
  }

  /** Once halted a session stays refused, whatever becomes of the records. */
  lemma {:induction false} HaltedSessionsStayRefused(
    labels: seq<Label>, more: seq<Label>, i: nat, coord: Option<(int, int)>, r: Reading)
    requires i < |RunWorld(labels).sessions| && RunWorld(labels).sessions[i].guard.halted
    ensures var w := RunWorld(labels + more);
      i < |w.sessions| && w.sessions[i].guard.halted && !Passes(w.sessions[i], coord, r)
  {
    if more == [] {
      assert labels + more == labels;
      RunIsOk(labels);
      var x := RunWorld(labels).sessions[i];
      if x.phase.Polled? { PollLatches(x.config, x.guard, coord, r.(poll := x.phase.result)); }
    } else {
      var last := |more| - 1;
      assert (labels + more)[..|labels + more| - 1] == labels + more[..last];
      HaltedSessionsStayRefused(labels, more[..last], i, coord, r);
      RunIsOk(labels + more[..last]);
      ApplyKeepsOk(RunWorld(labels + more[..last]), more[last]);
      RunIsOk(labels + more);
      var x := RunWorld(labels + more).sessions[i];
      if x.phase.Polled? { PollLatches(x.config, x.guard, coord, r.(poll := x.phase.result)); }
    }
  }

  // ---------------------------------------------------------------- which records apply to a target

  /** A record under the name of a target's platform halts every session mounted for the target, remote or
      local; a record of its own does too. */
  lemma {:induction false} MountsHonourThePlatformsRecord(
      files: Store, b: Backend, c: Config, first: Access, second: Access)
    requires SafeFilename(b.name) in files
    ensures var x := MountSession(files, b, c, first, second); x.Some? ==> x.value.guard.halted
  {
  }

  /** The files a session watches: its target's own, and its platform's. */
  lemma {:induction false} SessionsWatchThePlatformsRecord(
      files: Store, b: Backend, c: Config, first: Access, second: Access)
    requires MountSession(files, b, c, first, second).Some?
    ensures var x := MountSession(files, b, c, first, second).value;
      && SafeFilename(b.name) in x.Own()
      && (b.isRemote && b.userHost.Some? && b.userHost.value != "" ==>
            x.Own() == {SafeFilename(b.name + ":" + b.userHost.value), SafeFilename(b.name)})
      && (!b.isRemote || b.userHost == None || b.userHost == Some("") ==> x.Own() == {SafeFilename(b.name)})
      && (x.guard.halted <==> exists f :: f in x.Own() && f in files)
      && (x.guard.halted ==>
            var own, platforms := SafeFilename(HaltKey(b)), SafeFilename(b.name);
            x.guard.haltSnapshot == Some(if own in files then Load(files, own, first).snapshot
                                         else Load(files, platforms, second).snapshot))
  {
    var x := MountSession(files, b, c, first, second).value;
    if f :| f in x.Own() && f in files { }
  }

  /** A session of a target, whenever it was mounted, refuses every event that begins while its platform's
      record stands and is not removed. */
  lemma {:induction false} PlatformRecordsReachTheirTargets(
      labels: seq<Label>, b: Backend, c: Config, first: Access, second: Access, more: seq<Label>, last: seq<Label>,
      coord: Option<(int, int)>, r: Reading)
    requires var w := RunWorld(labels); c.hasPoll && MountSession(w.files, b, c, first, second).Some?
    requires var w := RunFrom(RunWorld(labels + [Mount(b, c, first, second)]), more);
      var i := |RunWorld(labels).sessions|;
      i < |w.sessions| && w.sessions[i].phase == Idle && SafeFilename(b.name) in w.files
    requires !Removes(last, SafeFilename(b.name)) && StaysInCall(last, |RunWorld(labels).sessions|)
    ensures var i := |RunWorld(labels).sessions|;
      var w := RunWorld(labels + [Mount(b, c, first, second)] + more + [Begin(i)] + last);
      i < |w.sessions| && !Passes(w.sessions[i], coord, r)
  {
    var i, f := |RunWorld(labels).sessions|, SafeFilename(b.name);
    var l0 := labels + [Mount(b, c, first, second)];
    var l1 := l0 + more;
    var l2 := l1 + [Begin(i)];
    assert l0[..|l0| - 1] == labels && l2[..|l2| - 1] == l1;
    SessionsWatchThePlatformsRecord(RunWorld(labels).files, b, c, first, second);
    RunSplits(l0, more);
    OwnStays(RunWorld(l0), more, i);
    assert f in RunWorld(l2).sessions[i].standing;
    RecordsKeepStanding(RunWorld(l2), last, i, f);
    RunSplits(l2, last);
    StandingRecordsRefuse(l2 + last, i, coord, r);
  }

  /** The files of a session never change. */
  lemma {:induction false} OwnStays(w: World, more: seq<Label>, i: nat)
    requires i < |w.sessions|
    ensures var w' := RunFrom(w, more); i < |w'.sessions| && w'.sessions[i].Own() == w.sessions[i].Own()
  {
    if more != [] {
      var last := |more| - 1;
      OwnStays(w, more[..last], i);
      StepKeepsOwn(RunFrom(w, more[..last]), more[last], i);
    }
  }

  lemma {:induction false} StepKeepsOwn(w: World, l: Label, i: nat)
    requires i < |w.sessions|
    ensures i < |Apply(w, l).sessions| && Apply(w, l).sessions[i].Own() == w.sessions[i].Own()
  {
  }

  // ---------------------------------------------------------------- when records are missed

  /** What counts as a miss: the call's own step looked for one of its own files, could look, and the file
      was not there. */
  lemma {:induction false} MissesAreLooks(labels: seq<Label>, l: Label, i: nat, f: string)
    requires var w := RunWorld(labels); i < |w.sessions| && f !in w.sessions[i].missed
    ensures var w := RunWorld(labels);
      i < |Apply(w, l).sessions| && f in Apply(w, l).sessions[i].missed ==>
        l.PollStep? && l.i == i && !l.a.blocked && f in w.sessions[i].Own() && f !in w.files
  {
  }

  /** The exact condition under which records are missed: a call whose poll is over has nothing to report
      exactly when it found each of its own files, the pre-migration one included, absent at one of its
      looks; and then the event passes exactly when everything else is clear. */
  lemma {:induction false} RecordsAreMissedExactlyWhen(
      labels: seq<Label>, i: nat, coord: Option<(int, int)>, r: Reading)
    requires i < |RunWorld(labels).sessions|
    ensures var x := RunWorld(labels).sessions[i];
      && ((x.phase.Polled? || x.phase == PollRaised) && !x.guard.halted ==>
            (x.phase == Polled(None) <==> x.missed == x.Own()))
      && (x.phase.Polled? ==>
            (Passes(x, coord, r) <==> x.missed == x.Own() && Clear(x.config, x.guard, coord, r.(poll := None))))
      && (Passes(x, coord, r) ==> x.standing == {})
  {
    RunIsOk(labels);
    var x := RunWorld(labels).sessions[i];
    assert SessionOk(RunWorld(labels).files, x);
    if x.phase.Polled? { PassesWhenClear(x, coord, r.(poll := x.phase.result)); }
  }

  lemma {:induction false} PassesWhenClear(x: Session, coord: Option<(int, int)>, r: Reading)
    requires Inv(x.config, x.guard) && x.config.hasPoll
    ensures BeforeEvent(x.config, x.guard, coord, r).1 == Passed <==> Clear(x.config, x.guard, coord, r)
    ensures Clear(x.config, x.guard, coord, r) ==> r.poll == None
  {
    ClassifyMeaning(x.config, x.guard, r);
    var (g1, refusal) := Classify(x.config, x.guard, r);
    if refusal == None { PlaceMeaning(x.config, g1, coord, r.target); }
  }

  /** A call's poll raises something that is no halt exactly when one of its looks is refused, stat finds a
      path that does not resolve, or the record it reads explodes. The guard is then left as it was. */
  lemma {:induction false} PollsRaiseExactlyWhen(
      files: Store, x: Session, a: Access, coord: Option<(int, int)>, r: Reading)
    requires x.phase != PollRaised
    ensures Poll1(files, x, a).phase == PollRaised <==>
      || (Looks(x).Some? && a.blocked)
      || (Stats(x).Some? && a.unresolved && Stats(x).value !in files)
      || (Reads(x).Some? && Reads(x).value in files && !a.unreadable && Explosive(a.py, files[Reads(x).value]))
    ensures Poll1(files, x, a).phase == PollRaised ==>
      !Passes(Poll1(files, x, a), coord, r) && FinishSession(Poll1(files, x, a), coord, r).guard == x.guard
  {
    if Reads(x).Some? && Reads(x).value in files { ReadingMeaning(a.py, files[Reads(x).value]); }
  }

  /** One such call, from beginning to end: the record stands, and still the guard is not halted. */
  lemma {:induction false} ExplosiveRecordsDoNotLatch(
      w: World, i: nat, a: Access, coord: Option<(int, int)>, r: Reading)
    requires WorldOk(w) && i < |w.sessions| && w.sessions[i].phase == Idle && !w.sessions[i].guard.halted
    requires w.sessions[i].primary in w.files && w.files[w.sessions[i].primary] == Faulty(a.py.loads + 1)
    requires !a.blocked && !a.unreadable
    ensures var w' := Apply(Apply(Apply(Apply(w, Begin(i)), PollStep(i, a)), PollStep(i, a)), PollStep(i, a));
      && w'.sessions[i].phase == PollRaised && !Passes(w'.sessions[i], coord, r)
      && !Apply(w', Finish(i, coord, r)).sessions[i].guard.halted
  {
    var w1 := Apply(w, Begin(i));
    var w2 := Apply(w1, PollStep(i, a));
    assert w2.sessions[i].phase == PrimaryStat;
    var w3 := Apply(w2, PollStep(i, a));
    assert w3.sessions[i].phase == PrimaryThere && w3.files == w.files;
    SomeRecordsExplode(a.py);
    assert Apply(w3, PollStep(i, a)).sessions[i].phase == PollRaised;
  }

  /** Without the proviso the claim is false: if the record goes between the start of the call and its
      first look, an otherwise clear event passes. */
  lemma {:induction false} ARecordRemovedInTimeIsMissed(
      w: World, i: nat, a: Access, coord: Option<(int, int)>, r: Reading)
    requires WorldOk(w) && i < |w.sessions| && w.sessions[i].phase == Idle && w.sessions[i].legacy == None
    requires w.sessions[i].primary in w.files
    requires !a.blocked && !a.unresolved
    requires r.poll == None && Clear(w.sessions[i].config, w.sessions[i].guard, coord, r)
    ensures var w' := Apply(Apply(Apply(w, Begin(i)), Remove(w.sessions[i].primary)), PollStep(i, a));
      Passes(w'.sessions[i], coord, r)
  {
    var x := w.sessions[i];
    ClassifyMeaning(x.config, x.guard, r);
    PlaceMeaning(x.config, Classify(x.config, x.guard, r).0, coord, r.target);
  }

  // ---------------------------------------------------------------- a call that nobody disturbs

  /** So many steps of a poll, while the files stay as they are. */
  function Polling(files: Store, x: Session, a: Access, steps: nat): Session {
    if steps == 0 then x else Poll1(files, Polling(files, x, a, steps - 1), a)
  }

  /** Four steps are enough, and a poll then reports what a mount at that time would have found; a halted
      guard does not look. The call is over once the event is decided, and starts the next one afresh. */
  lemma {:induction false} UndisturbedPollsReport(
      files: Store, x: Session, a: Access, coord: Option<(int, int)>, r: Reading)
    requires x.phase == Began && x.config.hasPoll && !a.blocked && !a.unresolved
    ensures var y := Polling(files, x, a, 4);
      && y.guard == x.guard && y.standing == x.standing && Poll1(files, y, a) == y
      && y.phase == (if x.guard.halted then Polled(None)
                     else match LoadAtMount(files, x.primary, x.legacy, a, a)
                          case Absent => Polled(None)
                          case Halt(s) => Polled(Some(s))
                          case Raises => PollRaised)
      && var z := FinishSession(y, coord, r);
      && z == x.(phase := Idle, standing := {}, missed := {}, guard := z.guard)
      && (y.phase.Polled? ==> z.guard == BeforeEvent(x.config, x.guard, coord, r.(poll := y.phase.result)).0)
      && (y.phase == PollRaised ==> z.guard == x.guard)
  {
    var y := Polling(files, x, a, 4);
    PollingUnfolds(files, x, a);
    var one := Poll1(files, x, a);
    if x.guard.halted {
      assert one == x.(phase := Polled(None));
    } else if x.primary in files {
      PrimaryIsRead(files, x, a);
    } else if x.legacy.Some? && x.legacy.value in files {
      assert one == x.(phase := LegacyNext, missed := x.missed + {x.primary});
      LegacyIsRead(files, one, a);
    } else {
      NothingIsFound(files, x, a);
    }
    DecidedPollsStay(files, y, a);
  }

  lemma {:induction false} PollingUnfolds(files: Store, x: Session, a: Access)
    ensures Polling(files, x, a, 4) == Poll1(files, Poll1(files, Poll1(files, Poll1(files, x, a), a), a), a)
  {
    assert Polling(files, x, a, 1) == Poll1(files, Polling(files, x, a, 0), a);
    assert Polling(files, x, a, 2) == Poll1(files, Polling(files, x, a, 1), a);
    assert Polling(files, x, a, 3) == Poll1(files, Polling(files, x, a, 2), a);
  }

  lemma {:induction false} DecidedPollsStay(files: Store, x: Session, a: Access)
    requires x.phase.Polled? || x.phase == PollRaised
    ensures Poll1(files, x, a) == x
  {
  }

  lemma {:induction false} PrimaryIsRead(files: Store, x: Session, a: Access)
    requires x.phase == Began && x.config.hasPoll && !a.blocked && !x.guard.halted && x.primary in files
    ensures Poll1(files, Poll1(files, Poll1(files, Poll1(files, x, a), a), a), a) ==
            x.After(Load(files, x.primary, a))
    ensures Load(files, x.primary, a) != Absent
  {
    var one := Poll1(files, x, a);
    assert one == x.(phase := PrimaryStat);
    var two := Poll1(files, one, a);
    assert two == x.(phase := PrimaryThere);
    ReadsAlwaysAnswer(files, x.primary, a);
    assert Poll1(files, two, a) == x.After(Read(files, x.primary, a));
    DecidedPollsStay(files, Poll1(files, two, a), a);
  }

  lemma {:induction false} LegacyIsRead(files: Store, x: Session, a: Access)
    requires x.phase == LegacyNext && !a.blocked && x.legacy.Some? && x.legacy.value in files
    ensures Poll1(files, Poll1(files, Poll1(files, x, a), a), a) == x.After(Load(files, x.legacy.value, a))
    ensures Load(files, x.legacy.value, a) != Absent
  {
    var one := Poll1(files, x, a);
    assert one == x.(phase := LegacyStat);
    var two := Poll1(files, one, a);
    assert two == x.(phase := LegacyThere);
    ReadsAlwaysAnswer(files, x.legacy.value, a);
  }

  lemma {:induction false} NothingIsFound(files: Store, x: Session, a: Access)
    requires x.phase == Began && x.config.hasPoll && !a.blocked && !a.unresolved && !x.guard.halted
    requires forall f :: f in x.Own() ==> f !in files
    ensures Poll1(files, Poll1(files, Poll1(files, Poll1(files, x, a), a), a), a) ==
            x.(phase := Polled(None), missed := x.missed + x.Own())
  {
    var one := Poll1(files, x, a);
    if x.legacy.Some? {
      assert one == x.(phase := LegacyNext, missed := x.missed + {x.primary});
      var two := Poll1(files, one, a);
      assert two.phase == Polled(None) && two.missed == x.missed + x.Own();
      DecidedPollsStay(files, two, a);
    } else {
      assert one.phase == Polled(None) && one.missed == x.missed + x.Own();
      DecidedPollsStay(files, one, a);
    }
  }
}
