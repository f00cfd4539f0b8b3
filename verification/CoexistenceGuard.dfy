/** The guard object of one driving session (coexistence_guard.py). Each method is proved to do to its
    fields, and to the pause, exclusion and binding objects it holds, what GuardSpec says. */
module CoexistenceGuard {
  import opened Wrappers
  import opened Pause
  import opened Exclusion
  import opened TargetBinding
  import opened GuardSpec
  import Spec = GuardSpec

  class CoexistenceGuard {
    const config: Config
    const pause: PauseController
    const exclusion: ExclusionZone
    const binding: TargetBinding
    var halted: bool
    var haltSnapshot: Option<Snapshot>
    var overrideActive: bool
    var bindOnSample: bool
    var releases: seq<string>

    ghost predicate Valid()
      reads this, pause, exclusion
    {
      pause.Valid() && exclusion.Valid() && (halted <==> haltSnapshot.Some?)
    }

    ghost function State(): (g: GuardState)
      requires Valid()
      reads this, pause, exclusion, binding
      ensures g.Valid()
    {
      GuardState(halted, haltSnapshot, overrideActive, bindOnSample,
                 pause.State(), exclusion.State(), binding.State(), releases)
    }

    /** A guard with a policy is only built while that policy is active. */
    constructor (c: Config)
      requires c.Accepted()
      ensures Valid() && config == c && fresh(pause) && fresh(exclusion) && fresh(binding)
      ensures State() == GuardState(false, None, c.hasPolicy, false, None, Zone([], map[]), NotBound, [])
    {
      config := c;
      pause := new PauseController();
      exclusion := new ExclusionZone();
      binding := new TargetBinding();
      halted, haltSnapshot, overrideActive, bindOnSample, releases := false, None, c.hasPolicy, false, [];
    }

    method ReleaseAll(reason: string)
      requires Valid()
      modifies this`releases
      ensures Valid() && State() == old(State()).Release(reason)
    {
      releases := releases + [reason];
    }

    method SeedHalted(s: Snapshot)
      requires Valid()
      modifies this`halted, this`haltSnapshot, this`overrideActive
      ensures Valid() && State() == old(State()).Seed(s)
    {
      halted := true;
      overrideActive := false;
      haltSnapshot := Some(s);
    }

    method PollDurableHalt(poll: Option<Snapshot>)
      requires Valid()
      modifies this`halted, this`haltSnapshot, this`overrideActive
      ensures Valid() && State() == Spec.Poll(config, old(State()), poll)
    {
      if halted || !config.hasPoll { return; }
      if poll.Some? { SeedHalted(poll.value); }
    }

    method HaltTargetFailure(basis: string) returns (o: Outcome)
      requires Valid()
      modifies this
      ensures Valid() && (State(), o) == Spec.HaltFailure(old(State()), basis)
    {
      if !halted { SeedHalted(Failure(basis)); }
      ReleaseAll("halted");
      o := Halted(haltSnapshot.value);
    }

    /** None to go on; otherwise the refusal already carried out. */
    method PresenceOverrideActive(active: bool) returns (refusal: Option<Outcome>)
      requires Valid()
      modifies this
      ensures Valid()
      ensures var g := Spec.Recheck(config, old(State()), active);
        if Spec.PolicyLost(config, g)
        then refusal.Some? && (State(), refusal.value) == Spec.HaltFailure(g, POLICY_LOST)
        else refusal == None && State() == g
    {
      if !config.hasPolicy { return None; }
      overrideActive := !halted && active;
      if !overrideActive && !halted {
        var o := HaltTargetFailure(POLICY_LOST);
        return Some(o);
      }
      refusal := None;
    }

    method BeforeEvent(coord: Option<(int, int)>, r: Reading) returns (o: Outcome)
      requires Valid()
      modifies this, binding
      ensures Valid() && (State(), o) == Spec.BeforeEvent(config, old(State()), coord, r)
    {
      var refusal := ClassifyPresence(r);
      if refusal.Some? { return refusal.value; }
      o := CheckPlace(coord, r.target);
    }

    method ClassifyPresence(r: Reading) returns (refusal: Option<Outcome>)
      requires Valid()
      modifies this
      ensures Valid() && (State(), refusal) == Classify(config, old(State()), r)
    {
      PollDurableHalt(r.poll);
      if halted && config.targetClock {
        ReleaseAll("halted");
        return Some(Halted(haltSnapshot.value));
      }
      refusal := PresenceOverrideActive(r.policyBefore);
      if refusal.Some? { return; }
      if r.sample.None? {
        if config.targetClock {
          var o := HaltTargetFailure("target_clock_unreadable");
          return Some(o);
        }
        return Some(Unreadable);
      }
      refusal := ClassifyOneSample(r.sample.value, r.policyAfter);
    }

    /** A policy is consulted again after a sample that may have been slow. */
    method ClassifyOneSample(sample: Snapshot, active: bool) returns (refusal: Option<Outcome>)
      requires Valid()
      modifies this
      ensures Valid() && (State(), refusal) == ClassifySample(config, old(State()), sample, active)
    {
      refusal := PresenceOverrideActive(active);
      if refusal.Some? { return; }
      var overridden := config.hasPolicy && overrideActive;
      if sample.presence == HumanActive && !overridden {
        halted := true;
        haltSnapshot := Some(sample);
      }
      if halted {
        ReleaseAll("halted");
        return Some(Halted(haltSnapshot.value));
      }
    }

    /** Pause, exclusion and delivery target, in that order. */
    method CheckPlace(coord: Option<(int, int)>, target: Target) returns (o: Outcome)
      requires Valid()
      modifies this, binding
      ensures Valid() && (State(), o) == Spec.CheckPlace(config, old(State()), coord, target)
    {
      var paused := pause.Check();
      if paused.Some? {
        ReleaseAll("paused");
        return Paused(paused.value);
      }
      if coord.Some? {
        var over := exclusion.Contains(coord.value.0, coord.value.1);
        if over.Some? {
          if config.hasPolicy && overrideActive { ReleaseAll("excluded"); }
          return Excluded(over.value);
        }
      }
      o := CheckDelivery(target);
    }

    method CheckDelivery(target: Target) returns (o: Outcome)
      requires Valid()
      modifies this, binding
      ensures Valid() && (State(), o) == CheckTarget(config, old(State()), target)
    {
      if config.hasPolicy && overrideActive {
        if Unidentified(target) {
          o := HaltTargetFailure("operator_presence_target_unverified");
          return;
        }
        if bindOnSample || !binding.bound {
          binding.Bind(target);
          bindOnSample := false;
        }
      }
      var same := binding.Check(target);
      if !same {
        ReleaseAll("target_changed");
        return TargetChanged;
      }
      o := Passed;
    }

    /** drive_anyway and the policy matter here; nothing is latched by a live classification. */
    method CheckStartPermission(poll: Option<Snapshot>, active: bool, last: Option<Snapshot>) returns (o: Outcome)
      requires Valid()
      modifies this
      ensures Valid() && (State(), o) == StartPermission(config, old(State()), poll, active, last)
    {
      PollDurableHalt(poll);
      if halted {
        ReleaseAll("halted");
        return Halted(haltSnapshot.value);
      }
      var refusal := PresenceOverrideActive(active);
      if refusal.Some? { return refusal.value; }
      var overridden := config.hasPolicy && overrideActive;
      if last.Some? && last.value.presence == HumanActive && !(config.driveAnyway || overridden) {
        return Halted(last.value);
      }
      o := Passed;
    }

    method CheckTargetCondition(poll: Option<Snapshot>, active: bool) returns (o: Outcome)
      requires Valid()
      modifies this
      ensures Valid() && (State(), o) == TargetCondition(config, old(State()), poll, active)
    {
      PollDurableHalt(poll);
      if halted {
        ReleaseAll("halted");
        return Halted(haltSnapshot.value);
      }
      var refusal := PresenceOverrideActive(active);
      if refusal.Some? { return refusal.value; }
      if config.hasPolicy && overrideActive {
        var paused := pause.Check();
        if paused.Some? {
          ReleaseAll("operator_condition_aborted");
          return Paused(paused.value);
        }
        if !(binding.bound && binding.boundTarget.Some?) {
          o := HaltTargetFailure("operator_presence_target_unverified");
          return;
        }
      }
      o := Passed;
    }

    method AcceptTargetResult(receipt: Option<Snapshot>, active: bool, foreground: Target, ok: bool)
      returns (o: Outcome)
      requires Valid()
      modifies this
      ensures Valid() && (State(), o) == AcceptResult(config, old(State()), receipt, active, foreground, ok)
    {
      if receipt.None? {
        o := HaltTargetFailure("target_clock_unreadable");
        return;
      }
      var refusal := PresenceOverrideActive(active);
      if refusal.Some? { return refusal.value; }
      var overridden := config.hasPolicy && overrideActive;
      if overridden && foreground != (if binding.bound then binding.boundTarget else None) {
        o := HaltTargetFailure("operator_presence_target_changed");
        return;
      }
      if receipt.value.presence == HumanActive && !overridden {
        SeedHalted(receipt.value);
      } else if !ok {
        o := HaltTargetFailure("target_precondition_rejected");
        return;
      }
      if halted {
        ReleaseAll("halted");
        return Halted(haltSnapshot.value);
      }
      o := Passed;
    }

    method BindCurrentTarget(target: Target)
      requires Valid()
      modifies this, binding
      ensures Valid() && State() == BindTarget(config, old(State()), target)
    {
      if config.hasPolicy {
        bindOnSample := true;
      } else if config.hasTargetSource {
        binding.Bind(target);
      }
    }

    method ReleaseBoundTarget()
      requires Valid()
      modifies this, binding
      ensures Valid() && State() == ReleaseTarget(old(State()))
    {
      bindOnSample := false;
      binding.Release();
    }
  }
}
