/** The checker of recorded halt traces (verify_coexistence.py: _halt_violation and the end of _run_case). */
module HaltTrace {
  import opened Wrappers

  /** One guarded call as it was recorded; the times are None where nothing was emitted. */
  datatype Row = Row(
    callId: int, active: bool, halted: bool, entry: int, ret: int, sampleReturn: int,
    emitBefore: Option<int>, emitAfter: Option<int>)

  datatype Release = Release(callId: int, halted: bool, at: int)

  datatype Status = PASS | OBSERVED | LIMIT | FAIL | INVALID

  /** The evidence of one case. The first row is the baseline; `latch` is the id of the attempt made after
      a halt, and `humanSent` the earliest time the independent child can have sent its event, if it did. */
  datatype Evidence = Evidence(
    timeline: seq<Row>, releases: seq<Release>, forbiddenInput: bool,
    latchRefused: bool, latch: Option<int>, humanSent: Option<int>, outsideMiss: bool, status: Status)

  function Rows(e: Evidence): seq<Row> { if e.timeline == [] then [] else e.timeline[1..] }

  predicate Active(r: Row) { r.active || r.halted }

  predicate Emits(r: Row) { r.emitBefore.Some? || r.emitAfter.Some? }

  /** The row's guard released everything because of the halt, inside its own call. */
  ghost predicate ReleasedInCall(e: Evidence, r: Row) {
    exists q :: q in e.releases && Answers(q, r)
  }

  predicate Answers(q: Release, r: Row) { q.callId == r.callId && q.halted && r.entry <= q.at <= r.ret }

  ghost predicate NoEmissionFrom(rows: seq<Row>, i: nat) { forall j :: i <= j < |rows| ==> !Emits(rows[j]) }

  predicate LatchHeld(e: Evidence, r: Row) {
    e.latchRefused && (if e.latch.Some? then e.latch.value else -1) >= r.callId
  }

  /** What the invariant asks of a row. */
  ghost predicate Obeys(e: Evidence, i: nat)
    requires i < |Rows(e)|
  {
    var r := Rows(e)[i];
    Active(r) ==> r.halted && ReleasedInCall(e, r) && NoEmissionFrom(Rows(e), i) && LatchHeld(e, r)
  }

  datatype Violation = None_ | Forbidden | InCall(id: int)

  /** _halt_violation: nothing exactly when no forbidden input was seen and every row obeys; otherwise
      the first row that does not is named. */
  method HaltViolation(e: Evidence) returns (v: Violation)
    ensures v == Forbidden <==> e.forbiddenInput
    ensures v == None_ <==> !e.forbiddenInput && forall i :: 0 <= i < |Rows(e)| ==> Obeys(e, i)
    ensures v.InCall? ==> exists i :: && 0 <= i < |Rows(e)| && Rows(e)[i].callId == v.id && !Obeys(e, i)
                                       && forall j :: 0 <= j < i ==> Obeys(e, j)
  {
    if e.forbiddenInput { return Forbidden; }
    var rows, i := Rows(e), 0;
    while i < |rows|
      invariant 0 <= i <= |rows|
      invariant forall j :: 0 <= j < i ==> Obeys(e, j)
    {
      if Active(rows[i]) {
        var released := WasReleased(e, rows[i]);
        var emitted := AnyEmission(rows, i);
        if !rows[i].halted || !released || emitted || !LatchHeld(e, rows[i]) {
          assert !Obeys(e, i);
          return InCall(rows[i].callId);
        }
      }
      i := i + 1;
    }
    v := None_;
  }

  method WasReleased(e: Evidence, r: Row) returns (yes: bool)
    ensures yes <==> ReleasedInCall(e, r)
  {
    var k := 0;
    while k < |e.releases|
      invariant 0 <= k <= |e.releases|
      invariant forall j :: 0 <= j < k ==> !Answers(e.releases[j], r)
    {
      var q := e.releases[k];
      if Answers(q, r) { return true; }
      k := k + 1;
    }
    yes := false;
  }

  method AnyEmission(rows: seq<Row>, i: nat) returns (yes: bool)
    requires i <= |rows|
    ensures yes <==> !NoEmissionFrom(rows, i)
  {
    var k := i;
    while k < |rows|
      invariant i <= k <= |rows| && forall j :: i <= j < k ==> !Emits(rows[j])
    {
      if Emits(rows[k]) { return true; }
      k := k + 1;
    }
    yes := false;
  }

  ghost predicate Holds(e: Evidence) { !e.forbiddenInput && forall i :: 0 <= i < |Rows(e)| ==> Obeys(e, i) }

  /** The first row with activity. */
  ghost predicate FirstActive(rows: seq<Row>, f: nat) {
    f < |rows| && Active(rows[f]) && forall j :: 0 <= j < f ==> !Active(rows[j])
  }

  /** The invariant, told from the first active row on: from there nothing is emitted, and each active
      row halted, released in its own call and was followed by a refused attempt. */
  lemma {:induction false} HoldsFromTheFirstActiveRow(e: Evidence, f: nat)
    requires FirstActive(Rows(e), f)
    ensures Holds(e) <==>
            && !e.forbiddenInput && e.latchRefused
            && NoEmissionFrom(Rows(e), f)
            && forall i :: f <= i < |Rows(e)| && Active(Rows(e)[i]) ==>
                 Rows(e)[i].halted && ReleasedInCall(e, Rows(e)[i]) && LatchHeld(e, Rows(e)[i])
  {
    if Holds(e) { assert Obeys(e, f); }
    if Holds(e) {
      forall i | f <= i < |Rows(e)| && Active(Rows(e)[i])
        ensures Rows(e)[i].halted && ReleasedInCall(e, Rows(e)[i]) && LatchHeld(e, Rows(e)[i])
      {
        assert Obeys(e, i);
      }
    }
  }

  /** The same in the recorded fields: after the baseline, a call with activity was halted, a release for the
      halt lies within it, neither it nor any later call has an emission, and an attempt of its number or a
      later one was refused; without a latched number that can only be a negative one. */
  lemma {:induction false} HoldsExactlyWhen(e: Evidence)
    ensures Holds(e) <==>
      && !e.forbiddenInput
      && forall i :: 1 <= i < |e.timeline| && (e.timeline[i].active || e.timeline[i].halted) ==>
           var r := e.timeline[i];
           && r.halted && e.latchRefused
           && (exists q :: q in e.releases && q.callId == r.callId && q.halted && r.entry <= q.at <= r.ret)
           && (forall j :: i <= j < |e.timeline| ==>
                 e.timeline[j].emitBefore == None && e.timeline[j].emitAfter == None)
           && (match e.latch case Some(n) => n >= r.callId case None => r.callId < 0)
  {
    forall i | 1 <= i < |e.timeline| ensures e.timeline[i] == Rows(e)[i - 1] {
    }
    if Holds(e) {
      forall i | 1 <= i < |e.timeline| && Active(e.timeline[i]) ensures Obeys(e, i - 1) {
      }
      forall i, j | 1 <= i <= j < |e.timeline| && Active(e.timeline[i]) ensures !Emits(e.timeline[j]) {
        assert Obeys(e, i - 1) && !Emits(Rows(e)[j - 1]);
      }
    }
    forall i: nat | i < |Rows(e)| && Active(Rows(e)[i]) ensures e.timeline[i + 1] == Rows(e)[i] {
    }
  }

  /* The end of a case. */

  function Count(rows: seq<Row>, p: Row -> bool): nat {
    if rows == [] then 0 else Count(rows[..|rows| - 1], p) + if p(rows[|rows| - 1]) then 1 else 0
  }

  predicate EarlySample(e: Evidence, r: Row) { r.active && (e.humanSent.Some? ==> r.sampleReturn <= e.humanSent.value) }

  method CountRows(rows: seq<Row>, p: Row -> bool) returns (n: nat)
    ensures n == Count(rows, p)
  {
    n := 0;
    var k := 0;
    while k < |rows|
      invariant 0 <= k <= |rows| && n == Count(rows[..k], p)
    {
      assert rows[..k + 1][..k] == rows[..k];
      if p(rows[k]) { n := n + 1; }
      k := k + 1;
    }
    assert rows[..k] == rows;
  }

  lemma {:induction false} CountIsZeroExactlyWhen(rows: seq<Row>, p: Row -> bool)
    ensures Count(rows, p) == 0 <==> forall r :: r in rows ==> !p(r)
  {
    if rows != [] {
      assert rows == rows[..|rows| - 1] + [rows[|rows| - 1]];
      CountIsZeroExactlyWhen(rows[..|rows| - 1], p);
    }
  }

  /** The finally clause of _run_case: a case keeps its status only if the invariant holds, no miss is
      proven, and, if it would stand as a success, no sample found activity before there was any. */
  method Finish(e: Evidence) returns (status: Status, emissions: nat, detected: bool)
    ensures status != e.status ==> status == FAIL
    ensures status != FAIL ==> Holds(e) && !e.outsideMiss && status == e.status
    ensures status in {PASS, OBSERVED, LIMIT} <==>
            && e.status in {PASS, OBSERVED, LIMIT} && Holds(e) && !e.outsideMiss
            && forall r :: r in Rows(e) && r.active ==> e.humanSent.Some? && r.sampleReturn > e.humanSent.value
    ensures status == INVALID <==> e.status == INVALID && Holds(e) && !e.outsideMiss
    ensures emissions == Count(Rows(e), (r: Row) => r.emitAfter.Some?)
    ensures detected <==> exists r :: r in Rows(e) && r.active
  {
    var early := CountRows(Rows(e), (r: Row) => EarlySample(e, r));
    CountIsZeroExactlyWhen(Rows(e), (r: Row) => EarlySample(e, r));
    emissions := CountRows(Rows(e), (r: Row) => r.emitAfter.Some?);
    var active := CountRows(Rows(e), (r: Row) => r.active);
    CountIsZeroExactlyWhen(Rows(e), (r: Row) => r.active);
    detected := active > 0;
    var violation := HaltViolation(e);
    status := e.status;
    if violation != None_ {
      status := FAIL;
    } else if e.outsideMiss {
      status := FAIL;
    }
    if (status == PASS || status == OBSERVED || status == LIMIT) && early > 0 { status := FAIL; }
  }

  /** So a case that finishes as a success emitted only strictly before the first activity: as many
      times as it did among the rows before that one. */
  lemma {:induction false} SuccessesEmitOnlyBeforeActivity(e: Evidence, f: nat)
    requires Holds(e) && FirstActive(Rows(e), f)
    ensures forall j :: 0 <= j < |Rows(e)| && Emits(Rows(e)[j]) ==> j < f
    ensures Count(Rows(e), (r: Row) => r.emitAfter.Some?) == Count(Rows(e)[..f], (r: Row) => r.emitAfter.Some?)
  {
    HoldsFromTheFirstActiveRow(e, f);
    CountStops(Rows(e), (r: Row) => r.emitAfter.Some?, f);
  }

  lemma {:induction false} CountStops(rows: seq<Row>, p: Row -> bool, f: nat)
    requires f <= |rows| && forall j :: f <= j < |rows| ==> !p(rows[j])
    ensures Count(rows, p) == Count(rows[..f], p)
  {
    if f == |rows| {
      assert rows[..f] == rows;
    } else {
      var shorter := rows[..|rows| - 1];
      assert shorter[..f] == rows[..f];
      CountStops(shorter, p, f);
    }
  }

  /** Where each call's emission ends inside the call and calls follow one another, "before" is also
      "earlier": every emission is over when the first active call begins. */
  lemma {:induction false} SuccessesEmitEarlier(e: Evidence, f: nat, j: nat)
    requires Holds(e) && FirstActive(Rows(e), f)
    requires j < |Rows(e)| && Rows(e)[j].emitAfter.Some?
    requires forall k: nat :: k + 1 < |Rows(e)| && Rows(e)[k].emitAfter.Some? ==>
               Rows(e)[k].emitAfter.value <= Rows(e)[k + 1].entry
    requires forall k: nat, l: nat :: k <= l < |Rows(e)| ==> Rows(e)[k].entry <= Rows(e)[l].entry
    ensures Rows(e)[j].emitAfter.value <= Rows(e)[f].entry
  {
    SuccessesEmitOnlyBeforeActivity(e, f);
    assert Emits(Rows(e)[j]);
    assert Rows(e)[j + 1].entry <= Rows(e)[f].entry;
  }
}
