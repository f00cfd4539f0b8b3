/** Acting on an earlier observation (observed_control.py) and the typing loop under it
    (ComputerTool._run and _guard_write). The screen, the target and the proof may change at any
    moment: each look at them is at its own point of time, and the world says what is found there. */
module Observed {
  import opened Wrappers
  import Geometry

  datatype Failure = Stale | Permission | Interrupted | Broken

  datatype Capture = Digest(value: nat) | TargetChanged | NoCapture

  /** What failures the parts that are not looked into here can have; none of them is staleness. */
  type Outside = f: Option<Failure> | f != Some(Stale) witness None

  datatype World = World(
    authority: nat -> bool,      // the proof is active and its binding is the current one
    expired: nat -> bool,        // the observation is older than it may be
    capture: nat -> Capture,
    guarded: bool,               // the target has a coexistence guard
    guard: nat -> Outside,       // what the guard makes of an event
    input: nat -> Outside,       // what comes of handing input to the backend
    landed: nat -> nat)          // how many characters of one call reach the target if it fails

  datatype Operation = Wait | TypeText | Press | Scroll | Click | Done

  datatype Input = Gesture(op: Operation) | Character(c: char)

  /** An input that was handed over, and when it had last been checked. */
  datatype Delivered = Delivered(what: Input, at: nat)

  /** Completed, denied, stale or unknown; or no status at all. */
  datatype Status = StatusCompleted | StatusStale | StatusDenied | StatusUnknown | Unavailable

  /** The screen is the observed one, on the observed target. */
  predicate Fresh(w: World, saved: nat, t: nat) { w.authority(t) && w.capture(t) == Digest(saved) }

  function StatusOf(f: Option<Failure>): Status {
    match f
    case None => StatusCompleted
    case Some(Stale) => StatusStale
    case Some(Permission) => StatusDenied
    case Some(_) => StatusUnknown
  }

  /** Input was handed over only under the checks due to it: the first after the guard with the screen
      fresh, every further character after the guard with the authority still there. */
  ghost predicate Authorised(w: World, saved: nat, delivered: seq<Delivered>) {
    && (delivered != [] ==> Fresh(w, saved, delivered[0].at))
    && forall i :: 0 <= i < |delivered| ==>
         w.authority(delivered[i].at) && (w.guarded ==> w.guard(delivered[i].at) == None)
  }

  /** What comes back from the backend is heeded: nothing follows an input that failed, and the failure is
      the outcome. */
  ghost predicate Heeded(w: World, delivered: seq<Delivered>, f: Option<Failure>) {
    && (forall i :: 0 <= i < |delivered| - 1 ==> w.input(delivered[i].at) == None)
    && (delivered != [] && w.input(delivered[|delivered| - 1].at).Some? ==> f == w.input(delivered[|delivered| - 1].at))
  }

  ghost predicate Spells(delivered: seq<Delivered>, text: string) {
    |delivered| <= |text| && forall i :: 0 <= i < |delivered| ==> delivered[i].what == Character(text[i])
  }

  /** Where a click on an observed region goes, on one axis: round(x + w / 2). */
  function Centre(x: int, w: int): int { Geometry.Round(x as real + w as real / 2.0) }

  /** It stays inside the region, but for one that is a single pixel wide and starts at an odd place: there
      the half is rounded to the even neighbour outside. */
  lemma CentreIsInsideExactlyWhen(x: int, w: int)
    requires w >= 1
    ensures x <= Centre(x, w) <= x + w
    ensures x <= Centre(x, w) < x + w <==> w >= 2 || x % 2 == 0
  {
  }

  lemma ASingleOddPixelIsMissed()
    ensures Centre(3, 1) == 4
  {
  }

  /** All of what was asked for has been handed over, and nothing else. */
  ghost predicate Carried(op: Operation, text: string, delivered: seq<Delivered>) {
    match op
    case TypeText => |delivered| == |text| && Spells(delivered, text)
    case Wait => delivered == []
    case _ => |delivered| == 1 && delivered[0].what == Gesture(op)
  }

  /** The guard or the backend itself fails for want of permission. */
  predicate Denies(w: World, t: nat) { w.guard(t) == Some(Permission) || w.input(t) == Some(Permission) }

  ghost predicate Undisturbed(w: World, saved: nat) {
    forall t: nat :: Fresh(w, saved, t) && !w.expired(t) && w.guard(t) == None && w.input(t) == None
  }

  class ObservedControl {
    const world: World
    const saved: nat             // the fingerprint of the observation acted upon
    var now: nat
    var validated: bool
    var started: bool
    var delivered: seq<Delivered>
    ghost var noticed: bool      // a change was noticed

    constructor (w: World, digest: nat)
      ensures world == w && saved == digest && delivered == [] && !validated && !started && !noticed
    {
      world, saved, now, validated, started, delivered, noticed := w, digest, 0, false, false, [], false;
    }

    /** validate: the only source of staleness, and it leaves nothing unnoticed. */
    method Validate() returns (f: Option<Failure>)
      modifies this`now, this`validated, this`noticed
      ensures now == old(now) + 1
      ensures f.None? ==> Fresh(world, saved, old(now)) && validated
      ensures f.None? ==> old(validated) || !world.expired(old(now))
      ensures Fresh(world, saved, old(now)) && !world.expired(old(now)) ==> f.None?
      ensures f == Some(Stale) <==>
              || !world.authority(old(now)) || (!old(validated) && world.expired(old(now)))
              || world.capture(old(now)).TargetChanged?
              || (world.capture(old(now)).Digest? && world.capture(old(now)).value != saved)
      ensures f.Some? ==> f.value == Stale || f.value == Broken
      ensures noticed == (old(noticed) || f == Some(Stale))
    {
      var t := now;
      now := now + 1;
      if !world.authority(t) || (!validated && world.expired(t)) {
        noticed := true;
        return Some(Stale);
      }
      match world.capture(t) {
        case NoCapture => return Some(Broken);
        case TargetChanged =>
          noticed := true;
          return Some(Stale);
        case Digest(value) =>
          if value != saved {
            noticed := true;
            return Some(Stale);
          }
          validated := true;
          return None;
      }
    }

    /** _ObservedTypingGuard.before_event. */
    method BeforeEvent() returns (f: Option<Failure>)
      modifies this`now, this`validated, this`started, this`noticed
      ensures now == old(now) + 1 && (f.None? ==> started) && (old(started) ==> started)
      ensures f.None? ==> world.guard(old(now)) == None && world.authority(old(now))
      ensures world.guard(old(now)).Some? ==> f == world.guard(old(now))
      ensures old(started) && world.guard(old(now)) == None ==>
                f == (if world.authority(old(now)) then None else Some(Interrupted))
                && noticed == (old(noticed) || f.Some?)
      ensures f.None? && !old(started) ==> Fresh(world, saved, old(now))
      ensures f == Some(Stale) ==> !old(started)
      ensures noticed ==> old(noticed) || f == Some(if old(started) then Interrupted else Stale)
      ensures f == Some(Stale) ==> noticed
      ensures f.None? ==> noticed == old(noticed)
      ensures Undisturbed(world, saved) ==> f.None?
      ensures f == Some(Permission) ==> exists t: nat :: Denies(world, t)
    {
      var refused := world.guard(now);
      assert refused == Some(Permission) ==> Denies(world, now);
      if refused.Some? {
        now := now + 1;
        return refused;
      }
      if !started {
        f := Validate();
        if f.Some? { return; }
      } else if !world.authority(now) {
        noticed := true;
        now := now + 1;
        return Some(Interrupted);
      } else {
        now := now + 1;
      }
      started := true;
      f := None;
    }

    /** The guarded typing loop: one character, one check. */
    method TypeGuarded(text: string) returns (f: Option<Failure>)
      requires delivered == [] && !started && !noticed && world.guarded
      modifies this
      ensures Spells(delivered, text) && Authorised(world, saved, delivered)
      ensures f.None? ==> |delivered| == |text| && !noticed
      ensures f == Some(Stale) <==> noticed && delivered == []
      ensures noticed && delivered != [] ==> f == Some(Interrupted)
      ensures Undisturbed(world, saved) ==> f.None?
      ensures f == Some(Permission) ==> exists t: nat :: Denies(world, t)
      ensures Heeded(world, delivered, f)
    {
      var i := 0;
      while i < |text|
        invariant 0 <= i <= |text| && |delivered| == i && Spells(delivered, text)
        invariant started <==> i > 0
        invariant Authorised(world, saved, delivered) && !noticed
        invariant forall j :: 0 <= j < i ==> world.input(delivered[j].at) == None
      {
        var t := now;
        f := BeforeEvent();
        if f.Some? { return; }
        delivered := delivered + [Delivered(Character(text[i]), t)];
        f := world.input(t);
        assert f == Some(Permission) ==> Denies(world, t);
        if f.Some? { return; }
        i := i + 1;
      }
      f := None;
    }

    /** Without a guard the whole text goes out in one call, after one check; if that fails, some of it
        has landed. */
    method TypeUnguarded(text: string) returns (f: Option<Failure>)
      requires delivered == [] && !noticed && !world.guarded
      modifies this
      ensures Spells(delivered, text) && Authorised(world, saved, delivered)
      ensures f.None? ==> |delivered| == |text| && !noticed
      ensures f == Some(Stale) <==> noticed && delivered == []
      ensures noticed && delivered != [] ==> f == Some(Interrupted)
      ensures Undisturbed(world, saved) ==> f.None?
      ensures f == Some(Permission) ==> exists t: nat :: Denies(world, t)
      ensures world.input(old(now)).Some? ==> f.Some? && |delivered| <= world.landed(old(now))
      ensures |delivered| > 0 ==> f == world.input(old(now))
      ensures forall i :: 0 <= i < |delivered| ==> delivered[i].at == old(now)
    {
      var t := now;
      f := Validate();
      if f.Some? { return; }
      f := world.input(t);
      assert f == Some(Permission) ==> Denies(world, t);
      var n := if f.None? || world.landed(t) > |text| then |text| else world.landed(t);
      delivered := seq(n, i requires 0 <= i < n => Delivered(Character(text[i]), t));
    }

    /** A click, a key press or a scroll: one call under _guard_write. */
    method Gesticulate(op: Operation) returns (f: Option<Failure>)
      requires delivered == [] && !noticed
      modifies this
      ensures |delivered| <= 1 && (delivered != [] ==> delivered[0].what == Gesture(op))
      ensures Authorised(world, saved, delivered)
      ensures f.None? ==> |delivered| == 1 && !noticed
      ensures f == Some(Stale) <==> noticed && delivered == []
      ensures noticed && delivered != [] ==> f == Some(Interrupted)
      ensures Undisturbed(world, saved) ==> f.None?
      ensures f == Some(Permission) ==> exists t: nat :: Denies(world, t)
      ensures Heeded(world, delivered, f)
    {
      var t := now;
      if world.guarded {
        f := world.guard(t);
        assert f == Some(Permission) ==> Denies(world, t);
        if f.Some? { return; }
      }
      f := Validate();
      if f.Some? { return; }
      delivered := [Delivered(Gesture(op), t)];
      f := world.input(t);
      assert f == Some(Permission) ==> Denies(world, t);
    }

    /** execute, for a candidate that was observed. `before` is how the request fares on its way to the
        desktop: validation, approval, disclosure. Whatever is reported stale or denied there has had
        no effect. */
    method Execute(op: Operation, text: string, before: Option<Failure>) returns (status: Status)
      requires delivered == [] && !started && !noticed && !validated
      modifies this
      ensures Authorised(world, saved, delivered)
      ensures status == StatusStale ==> delivered == []
      ensures noticed && delivered != [] ==> status == StatusUnknown
      ensures noticed && delivered == [] ==> status == StatusStale
      ensures status == StatusStale ==> noticed || before == Some(Stale)
      ensures status == StatusDenied ==>
                (before == Some(Permission) && delivered == []) || exists t: nat :: Denies(world, t)
      ensures before == Some(Permission) && !noticed ==> status == StatusDenied || status == Unavailable
      ensures before.Some? ==> delivered == [] && (!noticed ==> status == StatusOf(before) || status == Unavailable)
      ensures status == StatusCompleted ==> !noticed && Carried(op, text, delivered)
      ensures status == StatusCompleted ==> forall i :: 0 <= i < |delivered| ==> world.input(delivered[i].at) == None
      ensures delivered != [] && world.input(delivered[|delivered| - 1].at).Some? ==>
                status == StatusOf(world.input(delivered[|delivered| - 1].at))
      ensures Undisturbed(world, saved) && before == None && !op.Done? && (op == TypeText ==> 0 < |text| <= 10000) ==>
                status == StatusCompleted
      ensures op == TypeText ==> Spells(delivered, text)
      ensures op.Done? || op.Wait? ==> delivered == []
      ensures op.Done? || (op == TypeText && |text| > 10000) ==> status == Unavailable && delivered == []
      ensures Undisturbed(world, saved) && before == None && op == TypeText && text == "" ==>
                status == StatusUnknown && delivered == []
    {
      if op.Done? || (op == TypeText && |text| > 10000) { return Unavailable; }
      var f := Validate();
      if f.Some? { return if f == Some(Stale) then StatusStale else Unavailable; }
      if before.Some? { return StatusOf(before); }
      if op == Wait { return StatusCompleted; }
      if op == TypeText {
        if text == "" { return StatusUnknown; }
        if world.guarded { f := TypeGuarded(text); } else { f := TypeUnguarded(text); }
      } else {
        f := Gesticulate(op);
      }
      status := StatusOf(f);
    }
  }
}
