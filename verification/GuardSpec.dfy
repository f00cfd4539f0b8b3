/** The guard every elementary event passes (coexistence_guard.py), as functions of its state.

    The presence monitor, the durable-halt poll and the target reader belong to other components; what
    they answer during one call is collected in a Reading and may be anything at all. */
module GuardSpec {
  import opened Wrappers
  import opened Pause
  import opened Exclusion
  import opened TargetBinding

  datatype Presence = Unknown | Quiet | HumanActive

  datatype Snapshot = Snapshot(presence: Presence, basis: string)

  /** Fixed when the guard is built. A policy is only accepted together with a target clock and a
      target source. */
  datatype Config = Config(
    hasPoll: bool,
    targetClock: bool,
    hasTargetSource: bool,
    hasPolicy: bool,
    driveAnyway: bool)
  {
    predicate Accepted() { hasPolicy ==> targetClock && hasTargetSource }
  }

  datatype Reading = Reading(
    poll: Option<Snapshot>,       // the durable record, if the poll reports one
    policyBefore: bool,           // policy.active() before sampling
    sample: Option<Snapshot>,     // None: IdleUnreadableError
    policyAfter: bool,            // policy.active() after sampling
    target: Target)               // the target read for this event

  datatype Outcome =
    | Passed
    | Halted(snapshot: Snapshot)
    | Paused(info: PauseInfo)
    | Excluded(name: string)
    | TargetChanged
    | Unreadable

  datatype GuardState = GuardState(
    halted: bool,
    haltSnapshot: Option<Snapshot>,
    overrideActive: bool,
    bindOnSample: bool,
    pause: Option<PauseInfo>,
    zone: Zone,
    binding: Bound,
    releases: seq<string>)        // the reasons release_all was called with
  {
    function Release(reason: string): GuardState { this.(releases := releases + [reason]) }

    function Seed(s: Snapshot): GuardState {
      this.(halted := true, overrideActive := false, haltSnapshot := Some(s))
    }

    ghost predicate Valid() { (halted <==> haltSnapshot.Some?) && zone.Valid() }
  }

  // ---------------------------------------------------------------- specification

  function Failure(basis: string): Snapshot { Snapshot(Unknown, basis) }

  /** _halt_target_failure: latch unless latched, release, refuse. */
  function HaltFailure(g: GuardState, basis: string): (GuardState, Outcome) {
    Refuse(if g.halted then g else g.Seed(Failure(basis)))
  }

  function Refuse(g: GuardState): (GuardState, Outcome) {
    (g.Release("halted"), Halted(if g.haltSnapshot.Some? then g.haltSnapshot.value else Failure("")))
  }

  function Poll(c: Config, g: GuardState, poll: Option<Snapshot>): GuardState {
    if g.halted || !c.hasPoll || poll.None? then g else g.Seed(poll.value)
  }

  /** _presence_override_active: the refreshed guard, and whether this check has to refuse. */
  function Recheck(c: Config, g: GuardState, active: bool): GuardState {
    if c.hasPolicy then g.(overrideActive := !g.halted && active) else g
  }

  predicate PolicyLost(c: Config, g: GuardState) { c.hasPolicy && !g.overrideActive && !g.halted }

  predicate Overridden(c: Config, g: GuardState) { c.hasPolicy && g.overrideActive }

  const POLICY_LOST := "operator_presence_override_expired_or_revoked"

  /** before_event up to and including the presence decision; a refusal has been carried out. */
  function Classify(c: Config, g: GuardState, r: Reading): (GuardState, Option<Outcome>) {
    var g1 := Poll(c, g, r.poll);
    if g1.halted && c.targetClock then Refused(Refuse(g1)) else
    var g2 := Recheck(c, g1, r.policyBefore);
    if PolicyLost(c, g2) then Refused(HaltFailure(g2, POLICY_LOST)) else
    if r.sample.None? then
      if c.targetClock then Refused(HaltFailure(g2, "target_clock_unreadable")) else (g2, Some(Unreadable))
    else ClassifySample(c, g2, r.sample.value, r.policyAfter)
  }

  function Refused(p: (GuardState, Outcome)): (GuardState, Option<Outcome>) { (p.0, Some(p.1)) }

  function ClassifySample(c: Config, g: GuardState, sample: Snapshot, active: bool): (GuardState, Option<Outcome>) {
    var g1 := Recheck(c, g, active);
    if PolicyLost(c, g1) then Refused(HaltFailure(g1, POLICY_LOST)) else
    var g2 := if sample.presence == HumanActive && !Overridden(c, g1)
              then g1.(halted := true, haltSnapshot := Some(sample)) else g1;
    if g2.halted then Refused(Refuse(g2)) else (g2, None)
  }

  /** before_event, as a function of what the call reads. */
  function BeforeEvent(c: Config, g: GuardState, coord: Option<(int, int)>, r: Reading): (GuardState, Outcome) {
    var (g1, refusal) := Classify(c, g, r);
    if refusal.Some? then (g1, refusal.value) else CheckPlace(c, g1, coord, r.target)
  }

  /** The checks that do not concern presence: pause, exclusion, delivery target. */
  function CheckPlace(c: Config, g: GuardState, coord: Option<(int, int)>, target: Target): (GuardState, Outcome) {
    if g.pause.Some? then (g.Release("paused"), Paused(g.pause.value)) else
    var over := if coord.Some? then g.zone.First(coord.value.0, coord.value.1) else None;
    if over.Some? then (if Overridden(c, g) then g.Release("excluded") else g, Excluded(over.value))
    else CheckTarget(c, g, target)
  }

  predicate Unidentified(t: Target) { t == None || t == Some("") || t == Some("0") }

  function CheckTarget(c: Config, g: GuardState, target: Target): (GuardState, Outcome) {
    if Overridden(c, g) && Unidentified(target) then
      HaltFailure(g, "operator_presence_target_unverified")
    else
      var g1 := if Overridden(c, g) && (g.bindOnSample || g.binding == NotBound)
                then g.(binding := BoundTo(target), bindOnSample := false) else g;
      if g1.binding.Rejects(target) then (g1.Release("target_changed"), TargetChanged) else (g1, Passed)
  }

  function StartPermission(c: Config, g: GuardState, poll: Option<Snapshot>, active: bool, last: Option<Snapshot>)
    : (GuardState, Outcome)
  {
    var g1 := Poll(c, g, poll);
    if g1.halted then Refuse(g1) else
    var g2 := Recheck(c, g1, active);
    if PolicyLost(c, g2) then HaltFailure(g2, POLICY_LOST) else
    if last.Some? && last.value.presence == HumanActive && !c.driveAnyway && !Overridden(c, g2)
    then (g2, Halted(last.value)) else (g2, Passed)
  }

  /** target_condition, called for each forwarded invocation when there is a target clock. */
  function TargetCondition(c: Config, g: GuardState, poll: Option<Snapshot>, active: bool): (GuardState, Outcome) {
    var g1 := Poll(c, g, poll);
    if g1.halted then Refuse(g1) else
    var g2 := Recheck(c, g1, active);
    if PolicyLost(c, g2) then HaltFailure(g2, POLICY_LOST) else
    if !Overridden(c, g2) then (g2, Passed) else
    if g2.pause.Some? then (g2.Release("operator_condition_aborted"), Paused(g2.pause.value)) else
    if !g2.binding.Verified() then HaltFailure(g2, "operator_presence_target_unverified") else (g2, Passed)
  }

  /** accept_target_result. `receipt` is None when it cannot be read; `foreground` and `ok` are its claims. */
  function AcceptResult(c: Config, g: GuardState, receipt: Option<Snapshot>, active: bool, foreground: Target, ok: bool)
    : (GuardState, Outcome)
  {
    if receipt.None? then HaltFailure(g, "target_clock_unreadable") else
    var g1 := Recheck(c, g, active);
    if PolicyLost(c, g1) then HaltFailure(g1, POLICY_LOST) else
    if Overridden(c, g1) && foreground != (if g1.binding.BoundTo? then g1.binding.target else None)
    then HaltFailure(g1, "operator_presence_target_changed") else
    if receipt.value.presence == HumanActive && !Overridden(c, g1) then Refuse(g1.Seed(receipt.value)) else
    if !ok then HaltFailure(g1, "target_precondition_rejected") else
    if g1.halted then Refuse(g1) else (g1, Passed)
  }

  function BindTarget(c: Config, g: GuardState, target: Target): GuardState {
    if c.hasPolicy then g.(bindOnSample := true)
    else if c.hasTargetSource then g.(binding := BoundTo(target))
    else g
  }

  function ReleaseTarget(g: GuardState): GuardState { g.(bindOnSample := false, binding := NotBound) }
}
