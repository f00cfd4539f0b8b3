/** Pause state (pause.py): only a human source may set or clear it. */
module Pause {
  import opened Wrappers

  datatype PauseInfo = PauseInfo(source: string, reason: string, since: real)

  datatype Refusal = PermissionError(source: string)

  const HUMAN_SOURCES: set<string> := {"overlay_click", "overlay_key", "manual_test"}

  class PauseController {
    var paused: bool
    var source: Option<string>
    var reason: Option<string>
    var since: Option<real>

    /** The four fields always tell the same story. */
    ghost predicate Valid()
      reads this
    {
      paused == source.Some? == reason.Some? == since.Some?
    }

    /** Who paused, why and since when. */
    ghost function State(): (p: Option<PauseInfo>)
      requires Valid()
      reads this
      ensures p.Some? == paused
    {
      if paused then Some(PauseInfo(source.value, reason.value, since.value)) else None
    }

    constructor ()
      ensures Valid() && State() == None
    {
      paused, source, reason, since := false, None, None, None;
    }

    method Set(from: string, why: string, clock: real) returns (r: Result<(), Refusal>)
      requires Valid()
      modifies this
      ensures Valid()
      ensures from in HUMAN_SOURCES ==> r == Ok(()) && State() == Some(PauseInfo(from, why, clock))
      ensures from !in HUMAN_SOURCES ==> r == Err(PermissionError(from)) && State() == old(State())
    {
      if from !in HUMAN_SOURCES { return Err(PermissionError(from)); }
      paused, source, reason, since := true, Some(from), Some(why), Some(clock);
      r := Ok(());
    }

    method Clear(from: string) returns (r: Result<(), Refusal>)
      requires Valid()
      modifies this
      ensures Valid()
      ensures from in HUMAN_SOURCES ==> r == Ok(()) && State() == None
      ensures from !in HUMAN_SOURCES ==> r == Err(PermissionError(from)) && State() == old(State())
    {
      if from !in HUMAN_SOURCES { return Err(PermissionError(from)); }
      paused, source, reason, since := false, None, None, None;
      r := Ok(());
    }

    /** None when the caller may go on; otherwise the facts PausedError carries. */
    method Check() returns (r: Option<PauseInfo>)
      requires Valid()
      ensures r == State()
    {
      if paused { return Some(PauseInfo(source.value, reason.value, since.value)); }
      r := None;
    }
  }
}
