/** The two routines of agent_scratch_lease.py as one process runs them when nobody else moves:
    straight-line code over the shared base directory, each call one step of ScratchLease. */
module ScratchSweep {
  import opened ScratchLease

  function Call1(s: State, k: SweeperId): State { Apply(s, SweepStep(k, "", false)) }

  /** What the documentation promises to reclaim: a private directory whose marker is intact, singly
      linked, old enough by the sweep's reading, and unlocked. */
  predicate Reclaimable(s: State, k: SweeperId, name: Name)
    requires k in s.sweepers
  {
    && name in s.names && s.names[name] in s.agents
    && var a := s.agents[s.names[name]];
    && a.isPrivate && a.markerMade && a.markerLinked && a.StatValid()
    && s.sweepers[k].now - a.mtime >= s.sweepers[k].MinimumAge()
    && a.lock == Free
  }

  /** The terms of that promise, in full: a private directory of the base whose marker is there under one
      name only, holds the whole line, is nobody's lock, and is a day old or more, and as old as the caller
      asks. The age is the sweep's start less the marker's last change. */
  lemma {:induction false} ReclaimableExactlyWhen(s: State, k: SweeperId, name: Name)
    requires k in s.sweepers
    ensures Reclaimable(s, k, name) <==>
      && name in s.names && s.names[name] in s.agents
      && var a, age := s.agents[s.names[name]], s.sweepers[k].now - s.agents[s.names[name]].mtime;
      && a.isPrivate && a.markerMade && a.markerLinked && a.extraLinks == 0 && a.content == Magic && a.lock == Free
      && age >= 86400.0 && age >= s.sweepers[k].maxAge
  {
  }

  /** A creator makes its directory and lease, and dies without cleaning up. */
  function Abandoned(s: State, i: AgentId, name: Name, isPrivate: bool, wrote: Content): State {
    var s1 := Apply(s, Spawn(i, name, isPrivate));
    var s2 := Apply(Apply(s1, CreateMarker(i)), Flock(i));
    Apply(Apply(s2, Write(i, wrote)), Die(i))
  }

  lemma {:induction false} AbandonedLeaves(s: State, i: AgentId, name: Name, isPrivate: bool, wrote: Content)
    requires i !in s.agents && name !in s.names
    ensures var t := Abandoned(s, i, name, isPrivate, wrote);
      && t.names == s.names[name := i] && t.sweepers == s.sweepers && i in t.agents
      && var a := t.agents[i];
      && a.isPrivate == isPrivate && a.markerMade == isPrivate && a.markerLinked == isPrivate && a.extraLinks == 0
      && a.lock == Free && a.phase == Dead
      && (isPrivate ==> a.content == wrote && a.mtime == s.clock)
  {
    var s1 := Apply(s, Spawn(i, name, isPrivate));
    var s2 := Apply(s1, CreateMarker(i));
    assert s2.agents[i].mtime == s.clock && s2.agents[i].phase == if isPrivate then MarkerOpen else Unleased;
    var s3 := Apply(s2, Flock(i));
    assert s3.agents[i].phase == if isPrivate then Holding else Unleased;
    var s4 := Apply(s3, Write(i, wrote));
    assert s4.agents[i].phase == if isPrivate then Written else Unleased;
  }

  /** An abandoned directory is for a later sweep to take if and only if its creator got the line written
      and the sweep starts at least a day, and at least the age asked for, after that. */
  lemma {:induction false} AbandonedAreReclaimableExactlyWhenOld(
      s: State, i: AgentId, name: Name, isPrivate: bool, wrote: Content, t: real, k: SweeperId, maxAge: real)
    requires i !in s.agents && name !in s.names && (k in s.sweepers ==> s.sweepers[k].phase == Ready)
    ensures var later := Apply(Apply(Abandoned(s, i, name, isPrivate, wrote), SetClock(t)), SweepStart(k, maxAge));
      && k in later.sweepers && later.sweepers[k].phase == Ready
      && (Reclaimable(later, k, name) <==>
            isPrivate && wrote == Magic && t - s.clock >= 86400.0 && t - s.clock >= maxAge)
  {
    AbandonedLeaves(s, i, name, isPrivate, wrote);
    var later := Apply(Apply(Abandoned(s, i, name, isPrivate, wrote), SetClock(t)), SweepStart(k, maxAge));
    assert later.agents[i] == Abandoned(s, i, name, isPrivate, wrote).agents[i] && later.names[name] == i;
    ReclaimableExactlyWhen(later, k, name);
  }

  /** Sweeper k is at phase p of the entry `name`, with nothing but itself changed since s0. */
  ghost predicate Scanning(s0: State, s: State, k: SweeperId, name: Name, p: SweepPhase) {
    && k in s0.sweepers && k in s.sweepers && s == Move(s0, k, s.sweepers[k])
    && name in s0.names && s0.names[name] in s0.agents
    && Same(s0.sweepers[k], s.sweepers[k], name, s0.names[name], p)
    && (PastStat(p) ==> s.sweepers[k].mtime == s0.agents[s0.names[name]].mtime)
  }

  predicate Same(w0: Sweeper, w: Sweeper, name: Name, i: AgentId, p: SweepPhase) {
    w.phase == p && w.now == w0.now && w.maxAge == w0.maxAge && w.name == name && w.dir == i
  }

  /** As Scanning, while k owns the lock of that entry's marker. */
  ghost predicate Owning(s0: State, s: State, k: SweeperId, name: Name, p: SweepPhase) {
    && k in s0.sweepers && k in s.sweepers && name in s0.names && s0.names[name] in s0.agents
    && var i := s0.names[name];
    && s == Put(Move(s0, k, s.sweepers[k]), i, s0.agents[i].(lock := BySweeper(k)))
    && Same(s0.sweepers[k], s.sweepers[k], name, i, p)
  }

  /** The check made on leaving phase p, read off the state the scan began in. */
  predicate Passes(s0: State, k: SweeperId, name: Name, p: SweepPhase)
    requires k in s0.sweepers && name in s0.names && s0.names[name] in s0.agents
  {
    var a := s0.agents[s0.names[name]];
    match p
    case Statted => a.isPrivate
    case DirOpen => a.markerMade && a.markerLinked
    case MarkerOpened => a.StatValid()
    case Fstatted => a.content == Magic
    case Valid => s0.sweepers[k].now - a.mtime >= s0.sweepers[k].MinimumAge()
    case _ => true
  }

  function After(p: SweepPhase): SweepPhase {
    match p
    case Statted => DirOpen
    case DirOpen => MarkerOpened
    case MarkerOpened => Fstatted
    case Fstatted => Valid
    case Valid => Aged
    case Locked => Refstatted
    case Refstatted => Revalid
    case Revalid => SameDir
    case SameDir => SameMarker
    case _ => Closing
  }

  lemma {:induction false} ScanAdvances(s0: State, s: State, k: SweeperId, name: Name, p: SweepPhase)
    requires Scanning(s0, s, k, name, p) && Examining(p) && p != Ready && p != Aged
    ensures Scanning(s0, Call1(s, k), k, name,
                     if Passes(s0, k, name, p) then After(p) else Closing)
  {
    assert s.sweepers[k := s.sweepers[k]] == s.sweepers;
  }

  lemma {:induction false} LockAdvances(s0: State, s: State, k: SweeperId, name: Name)
    requires Scanning(s0, s, k, name, Aged)
    ensures var s' := Call1(s, k);
            if s0.agents[s0.names[name]].lock == Free then Owning(s0, s', k, name, Locked)
            else Scanning(s0, s', k, name, Closing)
  {
  }

  lemma {:induction false} RecheckAdvances(s0: State, s: State, k: SweeperId, name: Name, p: SweepPhase)
    requires Owning(s0, s, k, name, p) && (p == Locked || p == Refstatted || p == Revalid || p == SameDir)
    requires Reclaimable(s0, k, name)
    ensures Owning(s0, Call1(s, k), k, name, After(p))
  {
  }

  /** The base directory after a successful attempt: entry and marker gone, all else as before. */
  function Reclaimed(s0: State, k: SweeperId, name: Name): State
    requires k in s0.sweepers && name in s0.names && s0.names[name] in s0.agents
  {
    var i := s0.names[name];
    Put(s0, i, s0.agents[i].(markerLinked := false, dirLinked := false))
    .(names := Without(s0.names, name), reports := s0.reports + [i])
  }

  predicate SameBase(s: State, t: State) { s == t.(sweepers := s.sweepers) }

  lemma {:induction false} ScanLeavesAlone(s0: State, s: State, k: SweeperId, name: Name)
    requires Scanning(s0, s, k, name, Closing)
    requires name in s0.names && s0.names[name] in s0.agents && s0.agents[s0.names[name]].lock != BySweeper(k)
    ensures SameBase(Call1(s, k), s0)
  {
    assert Call1(s, k).agents == s0.agents;
  }

  lemma {:induction false} OwnerLeavesAlone(s0: State, s: State, k: SweeperId, name: Name)
    requires Owning(s0, s, k, name, Closing)
    requires name in s0.names && s0.names[name] in s0.agents && s0.agents[s0.names[name]].lock == Free
    ensures SameBase(Call1(s, k), s0)
  {
    var i, a := s0.names[name], s0.agents[s0.names[name]];
    ClosingFrees(s, k);
    assert s.agents[i].(lock := Free) == a;
    assert s.agents[i := a] == s0.agents;
  }

  lemma {:induction false} ClosingFrees(s: State, k: SweeperId)
    requires k in s.sweepers && s.sweepers[k].phase == Closing && s.sweepers[k].dir in s.agents
    requires s.agents[s.sweepers[k].dir].lock == BySweeper(k)
    ensures var w := s.sweepers[k];
            Call1(s, k) == Put(Move(s, k, w.To(Ready)), w.dir, s.agents[w.dir].(lock := Free))
  {
  }

  lemma {:induction false} LeavesAlone(s0: State, s: State, k: SweeperId, name: Name)
    requires Scanning(s0, s, k, name, Closing) || Owning(s0, s, k, name, Closing)
    requires name in s0.names && s0.names[name] in s0.agents
    requires Scanning(s0, s, k, name, Closing) ==> s0.agents[s0.names[name]].lock != BySweeper(k)
    requires Owning(s0, s, k, name, Closing) ==> s0.agents[s0.names[name]].lock == Free
    ensures SameBase(Call1(s, k), s0)
  {
    if Scanning(s0, s, k, name, Closing) {
      ScanLeavesAlone(s0, s, k, name);
    } else {
      OwnerLeavesAlone(s0, s, k, name);
    }
  }

  lemma {:induction false} UnlinkAdvances(s0: State, s: State, k: SweeperId, name: Name)
    requires Owning(s0, s, k, name, SameMarker) && s0.agents[s0.names[name]].markerLinked
    ensures Owning(s0, Apply(s, SweepStep(k, "", true)), k, name, Closing)
    ensures var i := s0.names[name];
      Owning(Put(s0, i, s0.agents[i].(markerLinked := false)), Call1(s, k), k, name, Unlinking)
  {
  }

  /** k still owns the lock of a marker whose directory is gone. */
  ghost predicate Gone(s0: State, s: State, k: SweeperId, name: Name, p: SweepPhase, reports: seq<AgentId>) {
    && k in s0.sweepers && k in s.sweepers && name in s0.names && s0.names[name] in s0.agents
    && var i := s0.names[name];
    && s == Put(Move(s0, k, s.sweepers[k]), i, s0.agents[i].(dirLinked := false, lock := BySweeper(k)))
            .(names := Without(s0.names, name), reports := reports)
    && Same(s0.sweepers[k], s.sweepers[k], name, i, p)
  }

  lemma {:induction false} RmdirAdvances(s0: State, s: State, k: SweeperId, name: Name)
    requires Owning(s0, s, k, name, Unlinking) && !s0.agents[s0.names[name]].markerLinked
    ensures Gone(s0, Call1(s, k), k, name, Removed, s0.reports)
  {
  }

  lemma {:induction false} ReportAdvances(s0: State, s: State, k: SweeperId, name: Name)
    requires Gone(s0, s, k, name, Removed, s0.reports)
    ensures Gone(s0, Call1(s, k), k, name, Closing, s0.reports + [s0.names[name]])
  {
  }

  lemma {:induction false} CloseAfterRemoval(s0: State, s: State, k: SweeperId, name: Name)
    requires name in s0.names && s0.names[name] in s0.agents && s0.agents[s0.names[name]].lock == Free
    requires var i := s0.names[name];
      Gone(Put(s0, i, s0.agents[i].(markerLinked := false)), s, k, name, Closing, s0.reports + [i])
    ensures SameBase(Call1(s, k), Reclaimed(s0, k, name))
  {
    var i, t := s0.names[name], Call1(s, k);
    assert t.agents[i] == Reclaimed(s0, k, name).agents[i];
    assert t.agents == Reclaimed(s0, k, name).agents;
  }

  /** Between two entries: k holds no lock and the listing is a proper directory. */
  ghost predicate Quiet(s: State, k: SweeperId) {
    && k in s.sweepers && s.sweepers[k].phase == Ready
    && (forall n :: n in s.names ==> s.names[n] in s.agents && s.agents[s.names[n]].lock != BySweeper(k)
                                     && s.agents[s.names[n]].name == n)
  }

  lemma {:induction false} QuietInEveryRun(labels: seq<Label>, k: SweeperId)
    requires k in Run(labels).sweepers && Run(labels).sweepers[k].phase == Ready
    ensures Quiet(Run(labels), k)
  {
    RunKeepsInv(labels);
    var s := Run(labels);
    forall n | n in s.names ensures s.agents[s.names[n]].lock != BySweeper(k) { assert AgentOk(s, s.names[n]); }
  }

  predicate SameSweep(s: State, t: State, k: SweeperId) {
    && k in s.sweepers && k in t.sweepers && t.sweepers[k].phase == Ready
    && t.sweepers[k].now == s.sweepers[k].now && t.sweepers[k].maxAge == s.sweepers[k].maxAge
  }

  lemma {:induction false} CloseKeepsSweep(s0: State, s: State, k: SweeperId)
    requires k in s0.sweepers && k in s.sweepers && s.sweepers[k].phase == Closing && s.sweepers[k].dir in s.agents
    requires s.sweepers[k].now == s0.sweepers[k].now && s.sweepers[k].maxAge == s0.sweepers[k].maxAge
    ensures SameSweep(s0, Call1(s, k), k)
  {
  }

  lemma {:induction false} QuietAfter(s0: State, s: State, k: SweeperId, name: Name)
    requires Quiet(s0, k) && SameSweep(s0, s, k) && name in s0.names
    requires SameBase(s, s0) || SameBase(s, Reclaimed(s0, k, name))
    ensures Quiet(s, k)
  {
  }

  const PREFIX := "amplifier-cu-v2-agent-"

  /** The entries one sweep takes away, in listing order. */
  function Doomed(s: State, k: SweeperId, listing: seq<Name>, broken: set<Name>): (d: seq<Name>)
    requires k in s.sweepers
  {
    if listing == [] then []
    else
      var rest := Doomed(s, k, listing[..|listing| - 1], broken);
      var n := listing[|listing| - 1];
      if PREFIX < n && Reclaimable(s, k, n) && n !in broken then rest + [n] else rest
  }

  lemma {:induction false} DoomedExactly(s: State, k: SweeperId, listing: seq<Name>, broken: set<Name>, n: Name)
    requires k in s.sweepers
    ensures n in Doomed(s, k, listing, broken)
       <==> n in listing && PREFIX < n && Reclaimable(s, k, n) && n !in broken
  {
    if listing != [] {
      assert listing == listing[..|listing| - 1] + [listing[|listing| - 1]];
      DoomedExactly(s, k, listing[..|listing| - 1], broken, n);
    }
  }

  /** What has become of the base directory once the names in `gone` are taken away. */
  ghost predicate Cleared(s0: State, s: State, gone: seq<Name>) {
    && s.agents.Keys == s0.agents.Keys
    && (forall n :: n in s.names <==> n in s0.names && n !in gone)
    && (forall n :: n in s.names ==> s.names[n] == s0.names[n])
    && (forall n :: n in s.names && s.names[n] in s0.agents ==> s.agents[s.names[n]] == s0.agents[s.names[n]])
    && |s.reports| == |s0.reports| + |gone|
  }

  lemma {:induction false} ClearOne(s0: State, s: State, t: State, k: SweeperId, gone: seq<Name>, name: Name)
    requires Quiet(s0, k) && Quiet(s, k) && Cleared(s0, s, gone) && name in s.names
    requires SameBase(t, Reclaimed(s, k, name))
    ensures Cleared(s0, t, gone + [name])
  {
    assert t.agents.Keys == s.agents.Keys;
    forall n | n in t.names ensures t.agents[t.names[n]] == s0.agents[t.names[n]] {
      assert n in s.names && s.names[n] != s.names[name];
    }
  }

  lemma {:induction false} StillReclaimable(s0: State, s: State, k: SweeperId, gone: seq<Name>, n: Name)
    requires Quiet(s0, k) && SameSweep(s0, s, k) && Cleared(s0, s, gone) && n !in gone
    ensures Reclaimable(s, k, n) == Reclaimable(s0, k, n)
  {
  }

  class ScratchBase {
    var st: State

    method Perform(l: Label)
      modifies this
      ensures st == Apply(old(st), l)
    {
      st := Apply(st, l);
    }

    /** One system call of the sweep; false when the attempt has to be abandoned. */
    method Call(k: SweeperId, fault: bool) returns (ok: bool)
      requires k in st.sweepers
      modifies this
      ensures k in st.sweepers && st == Apply(old(st), SweepStep(k, "", fault))
      ensures ok == (st.sweepers[k].phase != Closing)
    {
      Perform(SweepStep(k, "", fault));
      ok := st.sweepers[k].phase != Closing;
    }

    /** Everything before the lock is held. */
    method Examine(k: SweeperId, name: Name) returns (ok: bool)
      requires k in st.sweepers && st.sweepers[k].phase == Ready
      requires name in st.names && st.names[name] in st.agents && st.agents[st.names[name]].isPrivate
      modifies this
      ensures ok == Reclaimable(old(st), k, name)
      ensures if ok then Owning(old(st), st, k, name, Locked) else Scanning(old(st), st, k, name, Closing)
    {
      ghost var s0 := st;
      Perform(SweepStep(k, name, false));
      ScanAdvances(s0, st, k, name, Statted);
      ok := Call(k, false);
      ScanAdvances(s0, st, k, name, DirOpen);
      ok := Call(k, false);
      if !ok { return; }
      ScanAdvances(s0, st, k, name, MarkerOpened);
      ok := Call(k, false);
      if !ok { return; }
      ScanAdvances(s0, st, k, name, Fstatted);
      ok := Call(k, false);
      ScanAdvances(s0, st, k, name, Valid);
      ok := Call(k, false);
      if !ok { return; }
      LockAdvances(s0, st, k, name);
      ok := Call(k, false);
    }

    /** The checks repeated under the lock. */
    method Recheck(k: SweeperId, name: Name, ghost s0: State)
      requires Owning(s0, st, k, name, Locked) && Reclaimable(s0, k, name)
      modifies this
      ensures Owning(s0, st, k, name, SameMarker)
    {
      RecheckAdvances(s0, st, k, name, Locked);
      var ok := Call(k, false);
      RecheckAdvances(s0, st, k, name, Refstatted);
      ok := Call(k, false);
      RecheckAdvances(s0, st, k, name, Revalid);
      ok := Call(k, false);
      RecheckAdvances(s0, st, k, name, SameDir);
      ok := Call(k, false);
    }

    /** rmtree, which may fail before it has removed anything, and the final look-up. */
    method RemoveTree(k: SweeperId, name: Name, ghost s0: State, rmtreeFails: bool) returns (removed: bool)
      requires Owning(s0, st, k, name, SameMarker) && Reclaimable(s0, k, name)
      modifies this
      ensures removed == !rmtreeFails
      ensures !removed ==> Owning(s0, st, k, name, Closing)
      ensures removed ==> var i := s0.names[name];
        Gone(Put(s0, i, s0.agents[i].(markerLinked := false)), st, k, name, Closing, s0.reports + [i])
    {
      UnlinkAdvances(s0, st, k, name);
      removed := Call(k, rmtreeFails);
      if !removed { return; }
      ghost var i := s0.names[name];
      ghost var s1 := Put(s0, i, s0.agents[i].(markerLinked := false));
      RmdirAdvances(s1, st, k, name);
      removed := Call(k, false);
      ReportAdvances(s1, st, k, name);
      var _ := Call(k, false);
    }

    /** With nobody interfering, an entry is reclaimed if and only if it is reclaimable and rmtree works;
        otherwise the base directory, every marker and every lock are as they were. */
    method RemoveIfUnlockedStale(k: SweeperId, name: Name, rmtreeFails: bool) returns (removed: bool)
      requires Quiet(st, k)
      modifies this
      ensures Quiet(st, k) && SameSweep(old(st), st, k)
      ensures removed == (Reclaimable(old(st), k, name) && !rmtreeFails)
      ensures SameBase(st, if removed then Reclaimed(old(st), k, name) else old(st))
    {
      if name !in st.names || !st.agents[st.names[name]].isPrivate { return false; }
      removed := Attempt(k, name, rmtreeFails);
    }

    /** The body of the attempt and its clean-up, for an entry that is a private directory. */
    method Attempt(k: SweeperId, name: Name, rmtreeFails: bool) returns (removed: bool)
      requires Quiet(st, k)
      requires name in st.names && st.agents[st.names[name]].isPrivate
      modifies this
      ensures Quiet(st, k) && SameSweep(old(st), st, k)
      ensures removed == (Reclaimable(old(st), k, name) && !rmtreeFails)
      ensures SameBase(st, if removed then Reclaimed(old(st), k, name) else old(st))
    {
      ghost var s0 := st;
      removed := Examine(k, name);
      if removed {
        Recheck(k, name, s0);
        removed := RemoveTree(k, name, s0, rmtreeFails);
        if removed {
          CloseAfterRemoval(s0, st, k, name);
          CloseKeepsSweep(s0, st, k);
        }
      }
      if !removed {
        LeavesAlone(s0, st, k, name);
        CloseKeepsSweep(s0, st, k);
      }
      var _ := Call(k, false);
      QuietAfter(s0, st, k, name);
    }

    /** One sweep over a directory listing. `broken` are the entries whose rmtree fails. */
    method SweepStaleAgentDirs(k: SweeperId, maxAge: real, listing: seq<Name>, broken: set<Name>)
      returns (removed: nat)
      requires Quiet(st, k) && (forall p, q :: 0 <= p < q < |listing| ==> listing[p] != listing[q])
      modifies this
      ensures Quiet(st, k)
      ensures var s1 := Apply(old(st), SweepStart(k, maxAge));
        && k in s1.sweepers && removed == |Doomed(s1, k, listing, broken)|
        && Cleared(s1, st, Doomed(s1, k, listing, broken))
    {
      Perform(SweepStart(k, maxAge));
      ghost var s1 := st;
      removed := 0;
      for i := 0 to |listing|
        invariant Quiet(s1, k) && Quiet(st, k) && SameSweep(s1, st, k)
        invariant removed == |Doomed(s1, k, listing[..i], broken)|
        invariant Cleared(s1, st, Doomed(s1, k, listing[..i], broken))
      {
        var name := listing[i];
        assert listing[..i + 1][..i] == listing[..i];
        ghost var gone, s := Doomed(s1, k, listing[..i], broken), st;
        if PREFIX < name {
          DoomedExactly(s1, k, listing[..i], broken, name);
          StillReclaimable(s1, st, k, gone, name);
          var went := RemoveIfUnlockedStale(k, name, name in broken);
          if went {
            removed := removed + 1;
            ClearOne(s1, s, st, k, gone, name);
          }
        }
      }
      assert listing[..|listing|] == listing;
    }
  }
}
