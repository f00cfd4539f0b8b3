/** What a guard guarantees over a whole session: any sequence of events, start checks, conditions,
    receipts, seeds, binds, pause clicks and zone changes, with any readings. */
module GuardRuns {
  import opened Wrappers
  import opened Pause
  import opened Exclusion
  import opened TargetBinding
  import opened GuardSpec

  datatype Op =
    | Event(coord: Option<(int, int)>, r: Reading)
    | Start(poll: Option<Snapshot>, active: bool, last: Option<Snapshot>)
    | Condition(poll: Option<Snapshot>, active: bool)
    | Receipt(receipt: Option<Snapshot>, active: bool, foreground: Target, ok: bool)
    | SeedHalt(s: Snapshot)
    | Bind(target: Target)
    | Unbind
    | PauseClick(info: PauseInfo)
    | ResumeClick
    | SetZone(zone: Zone)

  function Do(c: Config, g: GuardState, op: Op): (GuardState, Outcome) {
    match op
    case Event(coord, r) => BeforeEvent(c, g, coord, r)
    case Start(poll, active, last) => StartPermission(c, g, poll, active, last)
    case Condition(poll, active) => TargetCondition(c, g, poll, active)
    case Receipt(receipt, active, foreground, ok) => AcceptResult(c, g, receipt, active, foreground, ok)
    case SeedHalt(s) => (g.Seed(s), Passed)
    case Bind(target) => (BindTarget(c, g, target), Passed)
    case Unbind => (ReleaseTarget(g), Passed)
    case PauseClick(info) => (g.(pause := Some(info)), Passed)
    case ResumeClick => (g.(pause := None), Passed)
    case SetZone(zone) => (g.(zone := zone), Passed)
  }

  function Fresh(c: Config): GuardState {
    GuardState(false, None, c.hasPolicy, false, None, Zone([], map[]), NotBound, [])
  }

  function Run(c: Config, ops: seq<Op>): GuardState {
    if ops == [] then Fresh(c) else Do(c, Run(c, ops[..|ops| - 1]), ops[|ops| - 1]).0
  }

  ghost predicate ProperOps(ops: seq<Op>) {
    forall i :: 0 <= i < |ops| && ops[i].SetZone? ==> ops[i].zone.Valid()
  }

  /** Halted exactly when a snapshot says why, and never overridden while halted or without a policy. */
  ghost predicate Inv(c: Config, g: GuardState) { g.Valid() && (g.overrideActive ==> c.hasPolicy && !g.halted) }

  /** What the presence half may change. */
  predicate SameButPresence(g: GuardState, g': GuardState) {
    g' == g.(halted := g'.halted, haltSnapshot := g'.haltSnapshot,
             overrideActive := g'.overrideActive, releases := g'.releases)
  }

  predicate HaltCarriedOut(g: GuardState, g': GuardState, o: Outcome) {
    g'.halted && g'.haltSnapshot.Some? && o == Halted(g'.haltSnapshot.value) && g'.releases == g.releases + ["halted"]
  }

  lemma {:induction false} SampleMeaning(c: Config, g: GuardState, sample: Snapshot, active: bool)
    requires Inv(c, g)
    ensures var (g', refusal) := ClassifySample(c, g, sample, active);
      && Inv(c, g') && SameButPresence(g, g') && (g.halted ==> g'.halted)
      && (refusal == None <==>
            !g.halted && (sample.presence == HumanActive ==> c.hasPolicy) && (c.hasPolicy ==> active))
      && (refusal == None ==> !g'.halted && g'.releases == g.releases && g'.overrideActive == c.hasPolicy)
      && (refusal.Some? ==> HaltCarriedOut(g, g', refusal.value))
  {
  }

  /** The presence half of an event: when it lets the event go on, and what a refusal has done. */
  lemma {:induction false} ClassifyMeaning(c: Config, g: GuardState, r: Reading)
    requires Inv(c, g)
    ensures var (g', refusal) := Classify(c, g, r);
      && Inv(c, g') && SameButPresence(g, g') && (g.halted ==> g'.halted)
      && (refusal == None <==>
            && !g.halted && (c.hasPoll ==> r.poll == None)
            && r.sample.Some? && (r.sample.value.presence == HumanActive ==> c.hasPolicy)
            && (c.hasPolicy ==> r.policyBefore && r.policyAfter))
      && (refusal == None ==> !g'.halted && g'.releases == g.releases && g'.overrideActive == c.hasPolicy)
      && (refusal.Some? ==>
            || (refusal.value == Unreadable && r.sample == None && !c.targetClock)
            || HaltCarriedOut(g, g', refusal.value))
  {
    var g2 := Recheck(c, Poll(c, g, r.poll), r.policyBefore);
    if r.sample.Some? && Inv(c, g2) {
      SampleMeaning(c, g2, r.sample.value, r.policyAfter);
    }
  }

  /** The other half: pause, excluded rectangles, delivery target. */
  lemma {:induction false} PlaceMeaning(c: Config, g: GuardState, coord: Option<(int, int)>, target: Target)
    requires Inv(c, g) && !g.halted
    ensures var (g', o) := CheckPlace(c, g, coord, target);
      && Inv(c, g') && g'.pause == g.pause && g'.zone == g.zone
      && (o == Passed <==>
            && g.pause == None && (coord.Some? ==> !g.zone.Excluded(coord.value.0, coord.value.1))
            && (g.overrideActive ==> !Unidentified(target))
            && (g.binding.Rejects(target) ==> g.overrideActive && g.bindOnSample))
      && match o
         case Passed => !g'.halted && g'.releases == g.releases && g'.overrideActive == g.overrideActive
           && (g'.binding == BoundTo(target) || (g'.binding == NotBound && !g.overrideActive))
         case Halted(s) => g'.halted && g'.haltSnapshot == Some(s) && g'.releases == g.releases + ["halted"]
         case Paused(info) => !g'.halted && g.pause == Some(info) && g'.releases == g.releases + ["paused"]
         case TargetChanged =>
           !g'.halted && g'.binding.Rejects(target) && g'.releases == g.releases + ["target_changed"]
         case Excluded(_) => !g'.halted && coord.Some? && g.zone.Excluded(coord.value.0, coord.value.1)
         case Unreadable => false
  {
    if coord.Some? {
      FirstMeansExcluded(g.zone, coord.value.0, coord.value.1);
    }
  }

  lemma {:induction false} EventKeepsInv(c: Config, g: GuardState, coord: Option<(int, int)>, r: Reading)
    requires Inv(c, g)
    ensures Inv(c, BeforeEvent(c, g, coord, r).0) && (g.halted ==> BeforeEvent(c, g, coord, r).0.halted)
  {
    ClassifyMeaning(c, g, r);
    var (g1, refusal) := Classify(c, g, r);
    if refusal == None { PlaceMeaning(c, g1, coord, r.target); }
  }

  lemma {:induction false} DoKeepsInv(c: Config, g: GuardState, op: Op)
    requires Inv(c, g) && (op.SetZone? ==> op.zone.Valid())
    ensures Inv(c, Do(c, g, op).0) && (g.halted ==> Do(c, g, op).0.halted)
  {
    match op
    case Event(coord, r) => EventKeepsInv(c, g, coord, r);
    case Start(poll, active, last) => ChecksKeepInv(c, g, op);
    case Condition(poll, active) => ChecksKeepInv(c, g, op);
    case Receipt(receipt, active, foreground, ok) => ReceiptsKeepInv(c, g, receipt, active, foreground, ok);
    case _ =>
  }

  lemma {:induction false} ChecksKeepInv(c: Config, g: GuardState, op: Op)
    requires Inv(c, g) && (op.Start? || op.Condition?)
    ensures Inv(c, Do(c, g, op).0) && (g.halted ==> Do(c, g, op).0.halted)
  {
  }

  lemma {:induction false} ReceiptsKeepInv(
    c: Config, g: GuardState, receipt: Option<Snapshot>, active: bool, foreground: Target, ok: bool)
    requires Inv(c, g)
    ensures var g' := AcceptResult(c, g, receipt, active, foreground, ok).0; Inv(c, g') && (g.halted ==> g'.halted)
  {
  }

  lemma {:induction false} RunKeepsInv(c: Config, ops: seq<Op>)
    requires ProperOps(ops)
    ensures Inv(c, Run(c, ops))
  {
    if ops != [] {
      RunKeepsInv(c, ops[..|ops| - 1]);
      DoKeepsInv(c, Run(c, ops[..|ops| - 1]), ops[|ops| - 1]);
    }
  }

  lemma {:induction false} ProperPrefix(ops: seq<Op>, prefix: seq<Op>)
    requires ProperOps(ops) && prefix <= ops
    ensures ProperOps(prefix)
  {
  }

  lemma {:induction false} HaltIsForever(c: Config, ops: seq<Op>, more: seq<Op>)
    requires ProperOps(ops + more) && Run(c, ops).halted
    ensures Run(c, ops + more).halted
  {
    if more == [] {
      assert ops + more == ops;
    } else {
      var last := |more| - 1;
      assert (ops + more)[..|ops + more| - 1] == ops + more[..last];
      assert (ops + more)[|ops + more| - 1] == more[last];
      ProperPrefix(ops + more, ops + more[..last]);
      HaltIsForever(c, ops, more[..last]);
      RunKeepsInv(c, ops + more[..last]);
      DoKeepsInv(c, Run(c, ops + more[..last]), more[last]);
    }
  }

  /** The snapshot an operation puts in the place of a halted guard's own, if it does. */
  function Replacement(c: Config, op: Op): Option<Snapshot> {
    match op
    case SeedHalt(s) => Some(s)
    case Event(_, r) =>
      if !c.targetClock && r.sample.Some? && r.sample.value.presence == HumanActive then r.sample else None
    case Receipt(receipt, _, _, _) =>
      if receipt.Some? && receipt.value.presence == HumanActive then receipt else None
    case _ => None
  }

  /** The halt stays, the reason kept with it may not: exactly a seed, a sample of a present human where there
      is no target clock, and a receipt of one replace it. */
  lemma {:induction false} SnapshotsAreReplacedExactlyBy(c: Config, ops: seq<Op>, op: Op)
    requires ProperOps(ops) && Run(c, ops).halted
    ensures Do(c, Run(c, ops), op).0.halted
    ensures Do(c, Run(c, ops), op).0.haltSnapshot ==
            if Replacement(c, op).Some? then Replacement(c, op) else Run(c, ops).haltSnapshot
  {
    RunKeepsInv(c, ops);
  }

  /** Once halted, every event, start check, condition and receipt is refused, for ever. */
  lemma {:induction false} NothingPassesAfterAHalt(c: Config, ops: seq<Op>, more: seq<Op>, op: Op)
    requires ProperOps(ops + more) && Run(c, ops).halted
    requires op.Event? || op.Start? || op.Condition? || op.Receipt?
    ensures Do(c, Run(c, ops + more), op).1 != Passed
  {
    HaltIsForever(c, ops, more);
    RunKeepsInv(c, ops + more);
  }

  /** A target that can be told from others: it has an id, and the id is neither empty nor "0". */
  predicate Identified(t: Target) { t.Some? && t.value != "" && t.value != "0" }

  /** When an event is let through: exactly when every one of these was checked and found so. */
  ghost predicate Clear(c: Config, g: GuardState, coord: Option<(int, int)>, r: Reading) {
    && !g.halted && (c.hasPoll ==> r.poll == None)
    && r.sample.Some? && (r.sample.value.presence == HumanActive ==> c.hasPolicy)
    && (c.hasPolicy ==> r.policyBefore && r.policyAfter && Identified(r.target))
    && g.pause == None
    && (coord.Some? ==> !g.zone.Excluded(coord.value.0, coord.value.1))
    && (g.binding.Rejects(r.target) ==> c.hasPolicy && g.bindOnSample)
  }

  lemma {:induction false} EventsPassExactlyWhenClear(c: Config, ops: seq<Op>, coord: Option<(int, int)>, r: Reading)
    requires ProperOps(ops)
    ensures BeforeEvent(c, Run(c, ops), coord, r).1 == Passed <==> Clear(c, Run(c, ops), coord, r)
  {
    RunKeepsInv(c, ops);
    ClassifyMeaning(c, Run(c, ops), r);
    var (g1, refusal) := Classify(c, Run(c, ops), r);
    if refusal == None { PlaceMeaning(c, g1, coord, r.target); }
  }

  /** A passed event leaves the guard unhalted and, when bound at all, bound to the target it was checked
      against; with a human at the machine that target is identified and the policy still active. */
  lemma {:induction false} PassedEventsAreOnTarget(c: Config, ops: seq<Op>, coord: Option<(int, int)>, r: Reading)
    requires ProperOps(ops) && BeforeEvent(c, Run(c, ops), coord, r).1 == Passed
    ensures var g, g' := Run(c, ops), BeforeEvent(c, Run(c, ops), coord, r).0;
      && !g'.halted && g'.releases == g.releases
      && (g'.binding == NotBound || g'.binding == BoundTo(r.target))
      && (r.sample.value.presence == HumanActive || c.hasPolicy ==>
            r.policyAfter && g'.overrideActive && g'.binding == BoundTo(r.target) && Identified(r.target))
  {
    RunKeepsInv(c, ops);
    ClassifyMeaning(c, Run(c, ops), r);
    PlaceMeaning(c, Classify(c, Run(c, ops), r).0, coord, r.target);
  }

  /** A refused event has released held input before it raises; the reason tells which refusal. */
  lemma {:induction false} RefusalsHaveReleased(c: Config, ops: seq<Op>, coord: Option<(int, int)>, r: Reading)
    requires ProperOps(ops)
    ensures var g, (g', o) := Run(c, ops), BeforeEvent(c, Run(c, ops), coord, r);
      match o
      case Halted(s) => g'.releases == g.releases + ["halted"] && g'.halted && g'.haltSnapshot == Some(s)
      case Paused(info) => g'.releases == g.releases + ["paused"] && g.pause == Some(info) && !g'.halted
      case TargetChanged => g'.releases == g.releases + ["target_changed"] && g'.binding.Rejects(r.target) && !g'.halted
      case Excluded(name) => coord.Some? && g.zone.Excluded(coord.value.0, coord.value.1) && !g'.halted
      case Unreadable => r.sample == None && !c.targetClock
      case Passed => g'.releases == g.releases
  {
    RunKeepsInv(c, ops);
    ClassifyMeaning(c, Run(c, ops), r);
    var (g1, refusal) := Classify(c, Run(c, ops), r);
    if refusal == None { PlaceMeaning(c, g1, coord, r.target); }
  }

  // ---------------------------------------------------------------- one operation, one target

  /** Neither binds nor releases: what happens in the course of one operation. */
  predicate WithinOneOperation(ops: seq<Op>) { forall i :: 0 <= i < |ops| ==> !ops[i].Bind? && !ops[i].Unbind? }

  /** Clear, the comparison with the bound target aside. */
  ghost predicate ClearButForTheTarget(c: Config, g: GuardState, coord: Option<(int, int)>, r: Reading) {
    Clear(c, g.(binding := NotBound), coord, r)
  }

  predicate FixedOn(c: Config, g: GuardState, t: Target) {
    g.binding == BoundTo(t) && (c.hasPolicy ==> !g.bindOnSample)
  }

  lemma {:induction false} DoKeepsTheTarget(c: Config, g: GuardState, op: Op, t: Target)
    requires FixedOn(c, g, t) && Inv(c, g) && !op.Bind? && !op.Unbind?
    ensures FixedOn(c, Do(c, g, op).0, t)
  {
    if op.Event? {
      ClassifyMeaning(c, g, op.r);
      PlacesKeepTheTarget(c, Classify(c, g, op.r).0, op.coord, op.r.target, t);
    } else if op.Start? || op.Condition? || op.Receipt? {
      ChecksKeepPlace(c, g, op);
    }
  }

  lemma {:induction false} PlacesKeepTheTarget(
      c: Config, g: GuardState, coord: Option<(int, int)>, target: Target, t: Target)
    requires FixedOn(c, g, t)
    ensures FixedOn(c, CheckPlace(c, g, coord, target).0, t)
  {
  }

  /** The other checks move nothing that does not concern presence. */
  lemma {:induction false} ChecksKeepPlace(c: Config, g: GuardState, op: Op)
    requires op.Start? || op.Condition? || op.Receipt?
    ensures SameButPresence(g, Do(c, g, op).0)
  {
    if op.Receipt? { ReceiptsKeepPlace(c, g, op.receipt, op.active, op.foreground, op.ok); }
  }

  lemma {:induction false} ReceiptsKeepPlace(
      c: Config, g: GuardState, receipt: Option<Snapshot>, active: bool, foreground: Target, ok: bool)
    ensures SameButPresence(g, AcceptResult(c, g, receipt, active, foreground, ok).0)
  {
  }

  lemma {:induction false} TheTargetStays(c: Config, ops: seq<Op>, more: seq<Op>, t: Target)
    requires ProperOps(ops + more) && WithinOneOperation(more) && FixedOn(c, Run(c, ops), t)
    ensures FixedOn(c, Run(c, ops + more), t)
  {
    if more == [] {
      assert ops + more == ops;
    } else {
      var last := |more| - 1;
      assert (ops + more)[..|ops + more| - 1] == ops + more[..last];
      assert (ops + more)[|ops + more| - 1] == more[last];
      ProperPrefix(ops + more, ops + more[..last]);
      TheTargetStays(c, ops, more[..last], t);
      RunKeepsInv(c, ops + more[..last]);
      DoKeepsTheTarget(c, Run(c, ops + more[..last]), more[last], t);
    }
  }

  /** What an operation is fixed on once `op` is done: without a policy the target read when it began, under
      one the target of its first event that passes. */
  predicate Fixes(c: Config, g: GuardState, op: Op, t: Target) {
    match op
    case Bind(target) => !c.hasPolicy && c.hasTargetSource && t == target
    case Event(coord, r) => c.hasPolicy && BeforeEvent(c, g, coord, r).1 == Passed && t == r.target
    case _ => false
  }

  /** From then on, whatever happens, events pass on that target and on no other. */
  lemma {:induction false} OperationsStayOnTheirTarget(
      c: Config, ops: seq<Op>, op: Op, more: seq<Op>, t: Target, coord: Option<(int, int)>, r: Reading)
    requires ProperOps(ops + [op] + more) && WithinOneOperation(more) && Fixes(c, Run(c, ops), op, t)
    ensures var g := Run(c, ops + [op] + more);
      BeforeEvent(c, g, coord, r).1 == Passed <==> ClearButForTheTarget(c, g, coord, r) && r.target == t
  {
    ProperPrefix(ops + [op] + more, ops);
    ProperPrefix(ops + [op] + more, ops + [op]);
    RunKeepsInv(c, ops);
    assert (ops + [op])[..|ops|] == ops && (ops + [op])[|ops|] == op;
    if op.Event? {
      PassedEventsAreOnTarget(c, ops, op.coord, op.r);
    }
    TheTargetStays(c, ops + [op], more, t);
    EventsPassExactlyWhenClear(c, ops + [op] + more, coord, r);
  }

  /** The next operation may be elsewhere: after a release, and under a policy after a bind, the first event
      is compared with no earlier target. */
  lemma {:induction false} OperationsStartAnywhere(
      c: Config, ops: seq<Op>, op: Op, coord: Option<(int, int)>, r: Reading)
    requires ProperOps(ops) && (op.Unbind? || (op.Bind? && c.hasPolicy))
    ensures var g := Do(c, Run(c, ops), op).0;
      BeforeEvent(c, g, coord, r).1 == Passed <==> ClearButForTheTarget(c, g, coord, r)
  {
    assert (ops + [op])[..|ops|] == ops && (ops + [op])[|ops|] == op;
    EventsPassExactlyWhenClear(c, ops + [op], coord, r);
  }

  // ---------------------------------------------------------------- the operator's wishes

  predicate KeepsPause(op: Op) { !op.PauseClick? && !op.ResumeClick? }

  lemma {:induction false} OpsKeepWishes(c: Config, g: GuardState, op: Op)
    requires Inv(c, g)
    ensures KeepsPause(op) ==> Do(c, g, op).0.pause == g.pause
    ensures !op.SetZone? ==> Do(c, g, op).0.zone == g.zone
  {
    if op.Event? {
      ClassifyMeaning(c, g, op.r);
      PlacesKeepWishes(c, Classify(c, g, op.r).0, op.coord, op.r.target);
    } else if op.Start? || op.Condition? || op.Receipt? {
      ChecksKeepPlace(c, g, op);
    }
  }

  lemma {:induction false} PlacesKeepWishes(c: Config, g: GuardState, coord: Option<(int, int)>, target: Target)
    ensures var g' := CheckPlace(c, g, coord, target).0; g'.pause == g.pause && g'.zone == g.zone
  {
  }

  /** The last click decides: from a pause on nothing passes until it is resumed, and then nothing of it is
      left; whatever else happens in between. */
  lemma {:induction false} PausesLastUntilResumed(
      c: Config, ops: seq<Op>, click: Op, more: seq<Op>, coord: Option<(int, int)>, r: Reading)
    requires ProperOps(ops + [click] + more) && (click.PauseClick? || click.ResumeClick?)
    requires forall i :: 0 <= i < |more| ==> KeepsPause(more[i])
    ensures var g := Run(c, ops + [click] + more);
      && g.pause == (if click.PauseClick? then Some(click.info) else None)
      && (click.PauseClick? ==> BeforeEvent(c, g, coord, r).1 != Passed)
    decreases |more|
  {
    var all := ops + [click] + more;
    if more == [] {
      assert all[..|ops|] == ops && all[|ops|] == click;
    } else {
      var last := |more| - 1;
      assert all[..|all| - 1] == ops + [click] + more[..last] && all[|all| - 1] == more[last];
      ProperPrefix(all, all[..|all| - 1]);
      PausesLastUntilResumed(c, ops, click, more[..last], coord, r);
      RunKeepsInv(c, all[..|all| - 1]);
      OpsKeepWishes(c, Run(c, all[..|all| - 1]), more[last]);
    }
    EventsPassExactlyWhenClear(c, all, coord, r);
  }

  /** Rectangles that are set stay set: no event at a point in one of them passes until they are changed. */
  lemma {:induction false} ExclusionsLast(
      c: Config, ops: seq<Op>, zone: Zone, more: seq<Op>, x: int, y: int, r: Reading)
    requires ProperOps(ops + [SetZone(zone)] + more)
    requires forall i :: 0 <= i < |more| ==> !more[i].SetZone?
    ensures var g := Run(c, ops + [SetZone(zone)] + more);
      g.zone == zone && (zone.Excluded(x, y) ==> BeforeEvent(c, g, Some((x, y)), r).1 != Passed)
    decreases |more|
  {
    var all := ops + [SetZone(zone)] + more;
    if more == [] {
      assert all[..|ops|] == ops && all[|ops|] == SetZone(zone);
    } else {
      var last := |more| - 1;
      assert all[..|all| - 1] == ops + [SetZone(zone)] + more[..last] && all[|all| - 1] == more[last];
      ProperPrefix(all, all[..|all| - 1]);
      ExclusionsLast(c, ops, zone, more[..last], x, y, r);
      RunKeepsInv(c, all[..|all| - 1]);
      OpsKeepWishes(c, Run(c, all[..|all| - 1]), more[last]);
    }
    EventsPassExactlyWhenClear(c, all, Some((x, y)), r);
  }

  // ---------------------------------------------------------------- the other checks

  /** An operation may start exactly when the guard is not halted, no record is reported, the policy, if
      there is one, is active, and a human last seen present is no obstacle: the operator said to drive
      anyway, or the policy covers it. Where only the human stands in the way nothing is latched or
      released; every other refusal is a halt carried out. */
  lemma {:induction false} StartsPassExactlyWhen(
      c: Config, ops: seq<Op>, poll: Option<Snapshot>, active: bool, last: Option<Snapshot>)
    requires ProperOps(ops)
    ensures var g, (g', o) := Run(c, ops), StartPermission(c, Run(c, ops), poll, active, last);
      var humanInTheWay := last.Some? && last.value.presence == HumanActive && !c.driveAnyway && !c.hasPolicy;
      && (o == Passed <==> Undenied(c, g, poll, active) && !humanInTheWay)
      && (Undenied(c, g, poll, active) && humanInTheWay ==> o == Halted(last.value) && !g'.halted)
      && (Undenied(c, g, poll, active) ==> g' == g.(overrideActive := c.hasPolicy))
      && (!Undenied(c, g, poll, active) ==> HaltCarriedOut(g, g', o))
  {
    RunKeepsInv(c, ops);
  }

  /** Neither halted, nor told of a halt, nor without its policy. */
  predicate Undenied(c: Config, g: GuardState, poll: Option<Snapshot>, active: bool) {
    !g.halted && (c.hasPoll ==> poll == None) && (c.hasPolicy ==> active)
  }

  /** A condition is handed to the target exactly when the same holds and, under a policy, nobody has
      paused and the bound target is an identified one. */
  lemma {:induction false} ConditionsPassExactlyWhen(c: Config, ops: seq<Op>, poll: Option<Snapshot>, active: bool)
    requires ProperOps(ops)
    ensures var g, (g', o) := Run(c, ops), TargetCondition(c, Run(c, ops), poll, active);
      var aside := c.hasPolicy && g.pause.Some?;
      var astray := c.hasPolicy && g.pause == None && !(g.binding.BoundTo? && g.binding.target.Some?);
      && (o == Passed <==> Undenied(c, g, poll, active) && !aside && !astray)
      && (o == Passed ==> g' == g.(overrideActive := c.hasPolicy))
      && (Undenied(c, g, poll, active) && aside ==>
            o == Paused(g.pause.value) && !g'.halted && g'.releases == g.releases + ["operator_condition_aborted"])
      && (!Undenied(c, g, poll, active) || astray ==> HaltCarriedOut(g, g', o))
  {
    RunKeepsInv(c, ops);
  }

  /** What the target reports back is accepted exactly when it can be read, says that the input went in,
      shows no human the policy does not cover, and names the bound target where there is a policy, which is
      still active; anything else is a halt carried out, for the human seen or for what was wrong. */
  lemma {:induction false} ReceiptsPassExactlyWhen(
      c: Config, ops: seq<Op>, receipt: Option<Snapshot>, active: bool, foreground: Target, ok: bool)
    requires ProperOps(ops)
    ensures var g, (g', o) := Run(c, ops), AcceptResult(c, Run(c, ops), receipt, active, foreground, ok);
      var expected := if g.binding.BoundTo? then g.binding.target else None;
      && (o == Passed <==>
            && receipt.Some? && ok && !g.halted
            && (receipt.value.presence == HumanActive ==> c.hasPolicy)
            && (c.hasPolicy ==> active && foreground == expected))
      && (o == Passed ==> g' == g.(overrideActive := c.hasPolicy))
      && (o != Passed ==> HaltCarriedOut(g, g', o))
      && (receipt.Some? && receipt.value.presence == HumanActive && !c.hasPolicy ==> o == Halted(receipt.value))
  {
    RunKeepsInv(c, ops);
    ReceiptMeaning(c, Run(c, ops), receipt, active, foreground, ok);
  }

  lemma {:induction false} ReceiptMeaning(
      c: Config, g: GuardState, receipt: Option<Snapshot>, active: bool, foreground: Target, ok: bool)
    requires Inv(c, g)
    ensures var (g', o) := AcceptResult(c, g, receipt, active, foreground, ok);
      && (o == Passed <==>
            && receipt.Some? && ok && !g.halted
            && (receipt.value.presence == HumanActive ==> c.hasPolicy)
            && (c.hasPolicy ==> active && foreground == if g.binding.BoundTo? then g.binding.target else None))
      && (o == Passed ==> g' == g.(overrideActive := c.hasPolicy))
      && (o != Passed ==> HaltCarriedOut(g, g', o))
      && (receipt.Some? && receipt.value.presence == HumanActive && !c.hasPolicy ==> o == Halted(receipt.value))
  {
  }

  /** Whether an operation consults the policy, and finds it inactive. */
  predicate FindsPolicyInactive(c: Config, op: Op) {
    c.hasPolicy &&
    match op
    case Event(_, r) => !r.policyBefore || (r.sample.Some? && !r.policyAfter)
    case Start(_, active, _) => !active
    case Condition(_, active) => !active
    case Receipt(receipt, active, _, _) => receipt.Some? && !active
    case _ => false
  }

  lemma {:induction false} LostPolicyHalts(c: Config, g: GuardState, op: Op)
    requires Inv(c, g) && FindsPolicyInactive(c, op) && c.Accepted()
    ensures Do(c, g, op).0.halted && Do(c, g, op).1.Halted?
  {
    if op.Event? {
      ClassifyMeaning(c, g, op.r);
    }
  }

  /** The first check that finds the policy expired or revoked ends the session, whatever the policy
      says later. */
  lemma {:induction false} LostPolicyIsFinal(c: Config, ops: seq<Op>, op: Op, more: seq<Op>, last: Op)
    requires ProperOps(ops + [op] + more) && FindsPolicyInactive(c, op) && c.Accepted()
    requires last.Event? || last.Start? || last.Condition? || last.Receipt?
    ensures Run(c, ops + [op]).halted && Do(c, Run(c, ops), op).1.Halted?
    ensures Do(c, Run(c, ops + [op] + more), last).1 != Passed
  {
    ProperPrefix(ops + [op] + more, ops);
    RunKeepsInv(c, ops);
    LostPolicyHalts(c, Run(c, ops), op);
    assert (ops + [op])[..|ops|] == ops && (ops + [op])[|ops|] == op;
    NothingPassesAfterAHalt(c, ops + [op], more, last);
  }

  // ---------------------------------------------------------------- the policy's own clocks

  datatype Policy = Policy(channel: string, expiresAt: real, reason: string, deadline: real)

  /** What one consultation reads: both clocks, the live channel, and the mount configuration if it
      still validates. */
  datatype Clocks = Clocks(wall: real, monotonic: real, channel: string, config: Option<(string, real, string)>)

  const MAX_LIFETIME: real := 3600.0

  function Grant(channel: string, expiresAt: real, reason: string, at: Clocks): Option<Policy> {
    if 0.0 < expiresAt - at.wall <= MAX_LIFETIME && at.channel == channel
    then Some(Policy(channel, expiresAt, reason, at.monotonic + expiresAt - at.wall)) else None
  }

  function Active(p: Policy, at: Clocks): bool {
    at.wall < p.expiresAt && at.monotonic < p.deadline && at.channel == p.channel
    && at.config == Some((p.channel, p.expiresAt, p.reason))
  }

  /** A policy is granted for its own channel, to end within the hour, and is active from then on exactly as
      long as neither clock has reached that end, the channel is the same, and so is the configuration. */
  lemma {:induction false} PoliciesAreActiveExactlyWhile(
      channel: string, expiresAt: real, reason: string, granted: Clocks, now: Clocks)
    ensures Grant(channel, expiresAt, reason, granted).Some? <==>
              granted.channel == channel && granted.wall < expiresAt && expiresAt <= granted.wall + 3600.0
    ensures Grant(channel, expiresAt, reason, granted).Some? ==>
      (Active(Grant(channel, expiresAt, reason, granted).value, now) <==>
         && now.wall < expiresAt && now.monotonic - granted.monotonic < expiresAt - granted.wall
         && now.channel == channel && now.config == Some((channel, expiresAt, reason)))
  {
  }

  /** With a human at the machine, events pass only while less than an hour of monotonic time has gone
      since the policy was granted, wherever the wall clock is moved. */
  lemma {:induction false} NoClockExtendsAPolicy(
    c: Config, ops: seq<Op>, coord: Option<(int, int)>, r: Reading,
    channel: string, expiresAt: real, reason: string, granted: Clocks, now: Clocks)
    requires ProperOps(ops) && Grant(channel, expiresAt, reason, granted).Some?
    requires r.sample.Some? && r.sample.value.presence == HumanActive
    requires r.policyAfter ==> Active(Grant(channel, expiresAt, reason, granted).value, now)
    ensures BeforeEvent(c, Run(c, ops), coord, r).1 == Passed ==>
              && now.monotonic < granted.monotonic + MAX_LIFETIME
              && now.wall < expiresAt && now.channel == channel && now.config == Some((channel, expiresAt, reason))
  {
    EventsPassExactlyWhenClear(c, ops, coord, r);
  }
}
