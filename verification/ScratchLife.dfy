/** The life of one lease over a whole run: who wrote it and when, what was checked before its directory
    went, and what becomes of a creator that goes on, ends in order or dies. */
module ScratchLife {
  import opened ScratchLease

  /** Label p is the creator writing that content, and the clock read t then. */
  ghost predicate WroteAt(labels: seq<Label>, p: nat, i: AgentId, wrote: Content, t: real) {
    p < |labels| && labels[p] == Write(i, wrote) && Run(labels[..p]).clock == t
  }

  ghost predicate StartedAt(labels: seq<Label>, q: nat, k: SweeperId, maxAge: real, t: real) {
    q < |labels| && labels[q] == SweepStart(k, maxAge) && Run(labels[..q]).clock == t
  }

  /** What sweepers never touch of an agent's record, and of one another's. */
  predicate SameRecord(a: Agent, a': Agent) {
    a' == a.(lock := a'.lock, markerLinked := a'.markerLinked, dirLinked := a'.dirLinked)
  }

  predicate KeepsRecord(s: State, s': State, i: AgentId) {
    i in s'.agents ==> i in s.agents && SameRecord(s.agents[i], s'.agents[i])
  }

  predicate KeepsSweep(s: State, s': State, h: SweeperId) {
    h in s'.sweepers ==>
      && h in s.sweepers && s'.sweepers[h].now == s.sweepers[h].now && s'.sweepers[h].maxAge == s.sweepers[h].maxAge
      && (s.sweepers[h].phase == Off ==> s'.sweepers[h].phase == Off)
  }

  lemma {:induction false} ExaminingKeepsRecords(
      s: State, k: SweeperId, name: Name, fault: bool, i: AgentId, h: SweeperId)
    requires k in s.sweepers && Examining(s.sweepers[k].phase)
    ensures KeepsRecord(s, ExamineStep(s, k, name, fault), i) && KeepsSweep(s, ExamineStep(s, k, name, fault), h)
  {
  }

  lemma {:induction false} ReclaimingKeepsRecords(s: State, k: SweeperId, fault: bool, i: AgentId, h: SweeperId)
    requires k in s.sweepers
    ensures KeepsRecord(s, ReclaimStep(s, k, fault), i) && KeepsSweep(s, ReclaimStep(s, k, fault), h)
  {
    var p := s.sweepers[k].phase;
    if p == SameMarker || p == Unlinking {
      RemovingKeepsRecords(s, k, fault, i, h);
    }
  }

  lemma {:induction false} RemovingKeepsRecords(s: State, k: SweeperId, fault: bool, i: AgentId, h: SweeperId)
    requires k in s.sweepers && (s.sweepers[k].phase == SameMarker || s.sweepers[k].phase == Unlinking)
    ensures KeepsRecord(s, ReclaimStep(s, k, fault), i) && KeepsSweep(s, ReclaimStep(s, k, fault), h)
  {
  }

  lemma {:induction false} SweepersKeepRecords(s: State, l: Label, i: AgentId, h: SweeperId)
    requires l.SweepStep? || l.SweeperDies?
    ensures KeepsRecord(s, Apply(s, l), i) && KeepsSweep(s, Apply(s, l), h)
  {
    if l.SweepStep? && l.k in s.sweepers {
      if Examining(s.sweepers[l.k].phase) {
        ExaminingKeepsRecords(s, l.k, l.name, l.fault, i, h);
      } else {
        ReclaimingKeepsRecords(s, l.k, l.fault, i, h);
      }
    }
  }

  predicate Leasing(a: Agent) { a.phase == MarkerOpen || a.HoldsLease() || a.content != Empty }

  /** What one step can do to the written record of an agent. */
  lemma {:induction false} RecordsChangeByWriting(s: State, l: Label, i: AgentId)
    requires i in Apply(s, l).agents && (i in s.agents ==> AgentOk(s, i))
    ensures var a' := Apply(s, l).agents[i];
      if i !in s.agents then !Leasing(a')
      else
        var a := s.agents[i];
        && a'.isPrivate == a.isPrivate && (Leasing(a') ==> Leasing(a) || a.isPrivate)
        && (a'.content == Empty || (a'.content == a.content && a'.mtime == a.mtime)
            || (l == Write(i, a'.content) && a'.mtime == s.clock))
  {
    if l.SweepStep? || l.SweeperDies? {
      SweepersKeepRecords(s, l, i, 0);
    } else if !l.SweepStart? && !l.SetClock? {
      CreatorsWrite(s, l, i);
    }
  }

  lemma {:induction false} CreatorsWrite(s: State, l: Label, i: AgentId)
    requires i in AgentStep(s, l).agents && (i in s.agents ==> AgentOk(s, i))
    ensures var a' := AgentStep(s, l).agents[i];
      if i !in s.agents then !Leasing(a')
      else
        var a := s.agents[i];
        && a'.isPrivate == a.isPrivate && (Leasing(a') ==> Leasing(a) || a.isPrivate)
        && (a'.content == Empty || (a'.content == a.content && a'.mtime == a.mtime)
            || (l == Write(i, a'.content) && a'.mtime == s.clock))
  {
  }

  lemma {:induction false} LeasesHaveAHistory(labels: seq<Label>, i: AgentId)
    requires i in Run(labels).agents && Leasing(Run(labels).agents[i])
    ensures var a := Run(labels).agents[i];
      a.isPrivate && (a.content != Empty ==> exists p :: WroteAt(labels, p, i, a.content, a.mtime))
  {
    var last := |labels| - 1;
    var earlier := labels[..last];
    RunKeepsInv(earlier);
    var s, a := Run(earlier), Run(labels).agents[i];
    assert i in s.agents ==> AgentOk(s, i);
    RecordsChangeByWriting(s, labels[last], i);
    if Leasing(s.agents[i]) { LeasesHaveAHistory(earlier, i); }
    if a.content != Empty {
      if a.content == s.agents[i].content && a.mtime == s.agents[i].mtime {
        var p: nat :| WroteAt(earlier, p, i, a.content, a.mtime);
        assert labels[..p] == earlier[..p];
        assert WroteAt(labels, p, i, a.content, a.mtime);
      } else {
        assert WroteAt(labels, last, i, a.content, a.mtime);
      }
    }
  }

  lemma {:induction false} SweepsAreStarted(s: State, l: Label, k: SweeperId)
    requires k in Apply(s, l).sweepers && Apply(s, l).sweepers[k].phase != Off
    ensures var w' := Apply(s, l).sweepers[k];
      || (k in s.sweepers && s.sweepers[k].phase != Off
          && w'.now == s.sweepers[k].now && w'.maxAge == s.sweepers[k].maxAge)
      || (l == SweepStart(k, w'.maxAge) && w'.now == s.clock)
  {
    if l.SweepStep? || l.SweeperDies? {
      SweepersKeepRecords(s, l, 0, k);
    }
  }

  lemma {:induction false} SweepsHaveAStart(labels: seq<Label>, k: SweeperId)
    requires k in Run(labels).sweepers && Run(labels).sweepers[k].phase != Off
    ensures var w := Run(labels).sweepers[k]; exists q :: StartedAt(labels, q, k, w.maxAge, w.now)
  {
    var last := |labels| - 1;
    var earlier := labels[..last];
    var s, w := Run(earlier), Run(labels).sweepers[k];
    SweepsAreStarted(s, labels[last], k);
    if labels[last] == SweepStart(k, w.maxAge) && w.now == s.clock {
      assert StartedAt(labels, last, k, w.maxAge, w.now);
    } else {
      SweepsHaveAStart(earlier, k);
      var q: nat :| StartedAt(earlier, q, k, w.maxAge, w.now);
      assert labels[..q] == earlier[..q];
      assert StartedAt(labels, q, k, w.maxAge, w.now);
    }
  }

  /** From the lock on, the clock that the sweep read at its start is at least a day, and at least the age the
      caller asked for, ahead of the clock at the creator's writing of the magic line in a private directory. */
  lemma {:induction false} SweepersWaitTheRetentionOut(labels: seq<Label>, k: SweeperId)
    requires k in Run(labels).sweepers && UnderLock(Run(labels).sweepers[k].phase)
    ensures var i := Run(labels).sweepers[k].dir;
      && i in Run(labels).agents && Run(labels).agents[i].isPrivate
      && exists p, q, maxAge, written, started ::
           && WroteAt(labels, p, i, Magic, written) && StartedAt(labels, q, k, maxAge, started)
           && started - written >= 86400.0 && started - written >= maxAge
  {
    RunKeepsInv(labels);
    var s, w := Run(labels), Run(labels).sweepers[k];
    assert SweeperOk(s, k);
    LeasesHaveAHistory(labels, w.dir);
    var p: nat :| WroteAt(labels, p, w.dir, Magic, s.agents[w.dir].mtime);
    SweepsHaveAStart(labels, k);
    var q: nat :| StartedAt(labels, q, k, w.maxAge, w.now);
  }

  /** From state p of the run to its end, sweeper k has owned the lock of the same marker. */
  ghost predicate LockedSince(labels: seq<Label>, p: nat, k: SweeperId) {
    p <= |labels| && forall m :: p <= m <= |labels| ==> LockedAt(labels, m, k)
  }

  ghost predicate LockedAt(labels: seq<Label>, m: nat, k: SweeperId)
    requires m <= |labels|
  {
    SameWork(Run(labels), Run(labels[..m]), k)
  }

  predicate SameWork(s: State, t: State, k: SweeperId) {
    && k in s.sweepers && k in t.sweepers && UnderLock(t.sweepers[k].phase)
    && t.sweepers[k].dir == s.sweepers[k].dir && t.sweepers[k].name == s.sweepers[k].name
  }

  predicate LinksCounted(p: SweepPhase) { UnderLock(p) && p != Locked }

  predicate NamesCompared(p: SweepPhase) { p == SameMarker || p == Unlinking || p == Removed }

  /** What the checks under the lock have found when a sweeper is past them. */
  lemma {:induction false} ChecksUnderTheLock(s: State, l: Label, k: SweeperId)
    requires k in Apply(s, l).sweepers && LinksCounted(Apply(s, l).sweepers[k].phase)
    ensures k in s.sweepers
    ensures var w, v := s.sweepers[k], Apply(s, l).sweepers[k];
      && UnderLock(w.phase) && w.dir == v.dir && w.name == v.name
      && (LinksCounted(w.phase) || (w.dir in s.agents && s.agents[w.dir].StatValid()))
      && (NamesCompared(v.phase) ==>
            NamesCompared(w.phase)
            || (NameIs(s, w.name, w.dir) && w.dir in s.agents && s.agents[w.dir].markerLinked))
  {
    if l.SweepStep? && l.k == k {
      var w := s.sweepers[k];
      if Examining(w.phase) {
        ExaminingCountsNothing(s, k, l.name, l.fault);
      } else {
        CheckUnderTheLock(s, k, l.fault);
      }
    } else {
      OthersLeaveIt(s, l, k);
    }
  }

  lemma {:induction false} OthersLeaveIt(s: State, l: Label, k: SweeperId)
    requires !(l.SweepStep? && l.k == k) && k in Apply(s, l).sweepers && UnderLock(Apply(s, l).sweepers[k].phase)
    ensures k in s.sweepers && s.sweepers[k] == Apply(s, l).sweepers[k]
  {
    if l.SweepStep? && l.k in s.sweepers {
      if Examining(s.sweepers[l.k].phase) {
        ExaminingLeavesOthers(s, l.k, l.name, l.fault, k);
      } else {
        ReclaimingLeavesOthers(s, l.k, l.fault, k);
      }
    }
  }

  lemma {:induction false} ExaminingLeavesOthers(s: State, h: SweeperId, name: Name, fault: bool, k: SweeperId)
    requires h in s.sweepers && h != k && k in ExamineStep(s, h, name, fault).sweepers
    ensures k in s.sweepers && s.sweepers[k] == ExamineStep(s, h, name, fault).sweepers[k]
  {
  }

  lemma {:induction false} ReclaimingLeavesOthers(s: State, h: SweeperId, fault: bool, k: SweeperId)
    requires h in s.sweepers && h != k && k in ReclaimStep(s, h, fault).sweepers
    ensures k in s.sweepers && s.sweepers[k] == ReclaimStep(s, h, fault).sweepers[k]
  {
  }

  lemma {:induction false} ExaminingCountsNothing(s: State, k: SweeperId, name: Name, fault: bool)
    requires k in s.sweepers && Examining(s.sweepers[k].phase)
    ensures k in ExamineStep(s, k, name, fault).sweepers
    ensures !LinksCounted(ExamineStep(s, k, name, fault).sweepers[k].phase)
  {
  }

  lemma {:induction false} CheckUnderTheLock(s: State, k: SweeperId, fault: bool)
    requires k in s.sweepers
    ensures var t, w := ReclaimStep(s, k, fault), s.sweepers[k];
      && k in t.sweepers
      && var v := t.sweepers[k];
      && w.dir == v.dir && w.name == v.name
      && (LinksCounted(v.phase) ==>
            && UnderLock(w.phase)
            && (LinksCounted(w.phase) || (w.dir in s.agents && s.agents[w.dir].StatValid()))
            && (NamesCompared(v.phase) ==>
                  NamesCompared(w.phase)
                  || (NameIs(s, w.name, w.dir) && w.dir in s.agents && s.agents[w.dir].markerLinked)))
  {
  }

  lemma {:induction false} LockedOn(labels: seq<Label>, p: nat, k: SweeperId)
    requires labels != [] && p < |labels| && LockedSince(labels[..|labels| - 1], p, k)
    requires SameWork(Run(labels[..|labels| - 1]), Run(labels), k)
    ensures LockedSince(labels, p, k)
  {
    var earlier := labels[..|labels| - 1];
    forall m | p <= m <= |labels| ensures LockedAt(labels, m, k) {
      if m < |labels| {
        assert LockedAt(earlier, m, k) && earlier[..m] == labels[..m];
      } else {
        assert labels[..m] == labels;
      }
    }
  }

  /** What a sweeper compared before it locked it compares again: past the link count, there was a state since
      it has had the lock in which the marker had the one link and the whole line; and past the names, one in
      which the looked-up name led to this directory and the marker was in it. */
  lemma {:induction false} ChecksAreRepeatedUnderTheLock(labels: seq<Label>, k: SweeperId)
    requires k in Run(labels).sweepers && LinksCounted(Run(labels).sweepers[k].phase)
    ensures var w := Run(labels).sweepers[k];
      && (exists p: nat :: LockedSince(labels, p, k) && CountedAt(labels, p, w.dir))
      && (NamesCompared(w.phase) ==>
            exists p: nat :: LockedSince(labels, p, k) && ComparedAt(labels, p, w.name, w.dir))
  {
    var last := |labels| - 1;
    var earlier := labels[..last];
    var s, w := Run(earlier), Run(labels).sweepers[k];
    ChecksUnderTheLock(s, labels[last], k);
    assert LockedSince(earlier, last, k) by { assert earlier[..last] == earlier; }
    LockedOn(labels, last, k);
    if LinksCounted(s.sweepers[k].phase) {
      ChecksAreRepeatedUnderTheLock(earlier, k);
      var p: nat :| LockedSince(earlier, p, k) && CountedAt(earlier, p, w.dir);
      LockedOn(labels, p, k);
      assert earlier[..p] == labels[..p] && CountedAt(labels, p, w.dir);
      if NamesCompared(s.sweepers[k].phase) {
        var q: nat :| LockedSince(earlier, q, k) && ComparedAt(earlier, q, w.name, w.dir);
        LockedOn(labels, q, k);
        assert earlier[..q] == labels[..q] && ComparedAt(labels, q, w.name, w.dir);
      }
    } else {
      assert CountedAt(labels, last, w.dir);
    }
    if NamesCompared(w.phase) && !NamesCompared(s.sweepers[k].phase) {
      assert ComparedAt(labels, last, w.name, w.dir);
    }
  }

  ghost predicate CountedAt(labels: seq<Label>, p: nat, i: AgentId) {
    && p <= |labels| && i in Run(labels[..p]).agents
    && var a := Run(labels[..p]).agents[i];
    a.content == Magic && if a.markerLinked then a.extraLinks == 0 else a.extraLinks == 1
  }

  ghost predicate ComparedAt(labels: seq<Label>, p: nat, n: Name, i: AgentId) {
    && p <= |labels| && i in Run(labels[..p]).agents
    && n in Run(labels[..p]).names && Run(labels[..p]).names[n] == i && Run(labels[..p]).agents[i].markerLinked
  }

  /** A system call that fails ends the attempt: nothing is removed, created or reported by it. */
  lemma {:induction false} FailuresAbandon(labels: seq<Label>, k: SweeperId, name: Name)
    requires k in Run(labels).sweepers
    ensures var s, t := Run(labels), Apply(Run(labels), SweepStep(k, name, true));
      var p := s.sweepers[k].phase;
      && t.names == s.names && t.reports == s.reports && t.agents.Keys == s.agents.Keys
      && (p != Closing ==> t.agents == s.agents)
      && (p == Ready || p == Off ==> t == s)
      && (p != Ready && p != Off && p != Closing && p != Valid ==> k in t.sweepers && t.sweepers[k].phase == Closing)
  {
    RunKeepsInv(labels);
    assert SweeperOk(Run(labels), k);
    if Examining(Run(labels).sweepers[k].phase) {
      ExaminingFails(Run(labels), k, name);
    } else {
      ReclaimingFails(Run(labels), k);
    }
  }

  lemma {:induction false} ExaminingFails(s: State, k: SweeperId, name: Name)
    requires k in s.sweepers && Examining(s.sweepers[k].phase) && SweeperOk(s, k)
    ensures var t, p := ExamineStep(s, k, name, true), s.sweepers[k].phase;
      && SameBut(s, t, k) && (p == Ready ==> t == s)
      && (p != Ready && p != Valid ==> t.sweepers[k].phase == Closing)
  {
  }

  lemma {:induction false} ReclaimingFails(s: State, k: SweeperId)
    requires k in s.sweepers && !Examining(s.sweepers[k].phase) && SweeperOk(s, k)
    ensures var t, p := ReclaimStep(s, k, true), s.sweepers[k].phase;
      && t.names == s.names && t.reports == s.reports && t.agents.Keys == s.agents.Keys
      && (p != Closing ==> SameBut(s, t, k)) && (p == Off ==> t == s)
      && (p != Off && p != Closing ==> t.sweepers[k].phase == Closing)
  {
  }

  ghost predicate SameBut(s: State, t: State, k: SweeperId) {
    k in t.sweepers && t.names == s.names && t.reports == s.reports && t.agents == s.agents
  }

  /** A removal is reported only by the sweeper that did it, while nothing has the name. */
  lemma {:induction false} ReportsAreOfNamesGone(labels: seq<Label>, l: Label)
    requires Apply(Run(labels), l).reports != Run(labels).reports
    ensures var s := Run(labels);
      && l.SweepStep? && l.k in s.sweepers && s.sweepers[l.k].phase == Removed && !l.fault
      && s.sweepers[l.k].name !in s.names
      && Apply(s, l).reports == s.reports + [s.sweepers[l.k].dir]
  {
    var s := Run(labels);
    if l.SweepStep? && l.k in s.sweepers {
      if Examining(s.sweepers[l.k].phase) {
        ExaminingReportsNothing(s, l.k, l.name, l.fault);
      } else {
        ReclaimingReports(s, l.k, l.fault);
      }
    }
  }

  lemma {:induction false} ExaminingReportsNothing(s: State, k: SweeperId, name: Name, fault: bool)
    requires k in s.sweepers
    ensures ExamineStep(s, k, name, fault).reports == s.reports
  {
  }

  lemma {:induction false} ReclaimingReports(s: State, k: SweeperId, fault: bool)
    requires k in s.sweepers && ReclaimStep(s, k, fault).reports != s.reports
    ensures s.sweepers[k].phase == Removed && !fault && s.sweepers[k].name !in s.names
    ensures ReclaimStep(s, k, fault).reports == s.reports + [s.sweepers[k].dir]
  {
  }

  /** A living creator that goes on gets its lease, whatever sweepers do: marker, lock, line. One whose
      directory is not private goes without. */
  lemma {:induction false} CreatorsGoOn(labels: seq<Label>, i: AgentId, wrote: Content)
    requires i in Run(labels).agents && Run(labels).agents[i].dirLinked
    ensures var s := Run(labels); var a := s.agents[i];
      match a.phase
      case HasDir =>
        var b := Apply(s, CreateMarker(i)).agents[i];
        if a.isPrivate then b.phase == MarkerOpen && b.markerMade && b.markerLinked && b.mtime == s.clock
        else b.phase == Unleased && !b.markerMade
      case MarkerOpen => Apply(s, Flock(i)).agents[i].phase == Holding && Apply(s, Flock(i)).agents[i].lock == ByCreator
      case Holding =>
        Apply(s, Write(i, wrote)).agents[i].phase == Written && Apply(s, Write(i, wrote)).agents[i].content == wrote
      case _ => true
  {
    RunKeepsInv(labels);
    assert AgentOk(Run(labels), i);
    if Run(labels).agents[i].phase == HasDir { UnmarkedUntilOpened(labels, i); }
  }

  lemma {:induction false} UnmarkedUntilOpened(labels: seq<Label>, i: AgentId)
    requires i in Run(labels).agents && Run(labels).agents[i].phase == HasDir
    ensures !Run(labels).agents[i].markerMade && Run(labels).agents[i].extraLinks == 0
  {
    var earlier := labels[..|labels| - 1];
    StartsUnmarked(Run(earlier), labels[|labels| - 1], i);
    if i in Run(earlier).agents {
      UnmarkedUntilOpened(earlier, i);
    }
  }

  lemma {:induction false} StartsUnmarked(s: State, l: Label, i: AgentId)
    requires i in Apply(s, l).agents && Apply(s, l).agents[i].phase == HasDir
    ensures i in s.agents ==> s.agents[i].phase == HasDir
    ensures (i in s.agents ==> !s.agents[i].markerMade && s.agents[i].extraLinks == 0) ==>
              !Apply(s, l).agents[i].markerMade && Apply(s, l).agents[i].extraLinks == 0
  {
    if l.SweepStep? || l.SweeperDies? {
      SweepersKeepRecords(s, l, i, 0);
    }
  }

  /** A creator that ends in order takes its directory with it; once it is dead only a sweeper can. */
  lemma {:induction false} CreatorsCleanUp(labels: seq<Label>, l: Label, i: AgentId)
    requires i in Run(labels).agents && Run(labels).agents[i].dirLinked
    ensures var s := Run(labels); var a := s.agents[i];
      && (a.phase != Dead ==>
            var t := Apply(Apply(s, ExitUnlink(i)), ExitRmdir(i));
            a.name !in t.names && !t.agents[i].dirLinked && !t.agents[i].markerLinked)
      && (a.phase == Dead && LosesLink(s, l, i) ==> l.SweepStep?)
  {
    if !l.SweepStep? { OthersKeepTheLinks(Run(labels), l, i); }
  }
}
