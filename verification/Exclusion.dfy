/** Excluded rectangles (exclusion.py): a registry in insertion order, scanned linearly. */
module Exclusion {
  import opened Wrappers

  datatype Rect = Rect(x1: int, y1: int, x2: int, y2: int) {
    predicate Contains(x: int, y: int) { x1 <= x < x2 && y1 <= y < y2 }
  }

  /** A dictionary together with the insertion order of its keys. */
  datatype Zone = Zone(order: seq<string>, rects: map<string, Rect>) {
    ghost predicate Valid() {
      && (forall n :: n in order <==> n in rects)
      && (forall i, j :: 0 <= i < j < |order| ==> order[i] != order[j])
    }

    ghost predicate Excluded(x: int, y: int) {
      exists n :: n in rects && rects[n].x1 <= x < rects[n].x2 && rects[n].y1 <= y < rects[n].y2
    }

    /** The index of the first rectangle over a point, from position i on; |order| if there is none. */
    function FirstFrom(i: nat, x: int, y: int): (k: nat)
      requires i <= |order|
      ensures i <= k <= |order|
      ensures forall j :: i <= j < k && order[j] in rects ==> !rects[order[j]].Contains(x, y)
      ensures k < |order| && order[k] in rects ==> rects[order[k]].Contains(x, y)
      decreases |order| - i
    {
      if i == |order| then i
      else if order[i] in rects && !rects[order[i]].Contains(x, y) then FirstFrom(i + 1, x, y)
      else i
    }

    function First(x: int, y: int): Option<string> {
      var k := FirstFrom(0, x, y);
      if k < |order| then Some(order[k]) else None
    }
  }

  lemma {:induction false} FirstMeansExcluded(z: Zone, x: int, y: int)
    requires z.Valid()
    ensures z.First(x, y).Some? <==> z.Excluded(x, y)
    ensures z.First(x, y).Some? ==> z.First(x, y).value in z.rects && z.rects[z.First(x, y).value].Contains(x, y)
  {
    var k := z.FirstFrom(0, x, y);
    if z.Excluded(x, y) {
      var n :| n in z.rects && z.rects[n].Contains(x, y);
      var j :| 0 <= j < |z.order| && z.order[j] == n;
    }
  }

  /** Rectangles that meet at an edge neither share a point nor leave one out between them. */
  lemma {:induction false} AdjacentRectanglesTile(r: Rect, m: int, x: int, y: int)
    ensures r.x1 <= m <= r.x2 ==>
              && (r.Contains(x, y) <==> r.(x2 := m).Contains(x, y) || r.(x1 := m).Contains(x, y))
              && !(r.(x2 := m).Contains(x, y) && r.(x1 := m).Contains(x, y))
    ensures r.y1 <= m <= r.y2 ==>
              && (r.Contains(x, y) <==> r.(y2 := m).Contains(x, y) || r.(y1 := m).Contains(x, y))
              && !(r.(y2 := m).Contains(x, y) && r.(y1 := m).Contains(x, y))
  {
  }

  class ExclusionZone {
    var order: seq<string>
    var rects: map<string, Rect>

    ghost function State(): Zone
      reads this
    {
      Zone(order, rects)
    }

    ghost predicate Valid()
      reads this
    {
      State().Valid()
    }

    constructor ()
      ensures Valid() && State() == Zone([], map[])
    {
      order, rects := [], map[];
    }

    /** A degenerate rectangle cannot be built, so it cannot be registered. */
    method Register(name: string, rect: Rect)
      requires Valid() && rect.x1 < rect.x2 && rect.y1 < rect.y2
      modifies this
      ensures Valid() && rects == old(rects)[name := rect]
      ensures order == if name in old(rects) then old(order) else old(order) + [name]
      ensures forall x, y :: State().Excluded(x, y) <==>
                rect.Contains(x, y) || Zone(old(order), old(rects) - {name}).Excluded(x, y)
    {
      if name !in rects { order := order + [name]; }
      rects := rects[name := rect];
      forall x, y | rect.Contains(x, y) ensures State().Excluded(x, y) { assert rects[name].Contains(x, y); }
      forall x, y | Zone(old(order), old(rects) - {name}).Excluded(x, y) ensures State().Excluded(x, y) {
        var n :| n in old(rects) - {name} && old(rects)[n].Contains(x, y);
        assert n in rects && rects[n].Contains(x, y);
      }
      forall x, y | State().Excluded(x, y) && !rect.Contains(x, y)
        ensures Zone(old(order), old(rects) - {name}).Excluded(x, y)
      {
        var n :| n in rects && rects[n].Contains(x, y);
        assert n in old(rects) - {name} && (old(rects) - {name})[n].Contains(x, y);
      }
    }

    /** Taking one name out leaves the other rectangles, and their order, as they were. */
    method Unregister(name: string)
      requires Valid()
      modifies this
      ensures Valid() && rects == old(rects) - {name}
      ensures name !in old(rects) ==> order == old(order)
      ensures exists i :: && 0 <= i <= |old(order)|
                          && order == old(order)[..i] + old(order)[if i == |old(order)| then i else i + 1..]
    {
      var i := 0;
      while i < |order| && order[i] != name
        invariant 0 <= i <= |order| && order == old(order) && rects == old(rects)
        invariant forall j :: 0 <= j < i ==> order[j] != name
      {
        i := i + 1;
      }
      rects := rects - {name};
      order := order[..i] + order[if i == |order| then i else i + 1..];
    }

    method Clear()
      modifies this
      ensures Valid() && State() == Zone([], map[])
    {
      order, rects := [], map[];
    }

    /** Linear scan, first match. */
    method Contains(x: int, y: int) returns (name: Option<string>)
      requires Valid()
      ensures name == State().First(x, y)
    {
      for i := 0 to |order|
        invariant State().FirstFrom(i, x, y) == State().FirstFrom(0, x, y)
      {
        assert order[i] in order;
        if rects[order[i]].Contains(x, y) { return Some(order[i]); }
      }
      name := None;
    }
  }
}
