/** Model and screen coordinates (geometry.py), in exact arithmetic. */
module Geometry {
  import opened Wrappers

  /** The integer nearest to r; a tie goes to the even neighbour. */
  function Round(r: real): (n: int)
    ensures n as real - 0.5 <= r <= n as real + 0.5
    ensures r == n as real + 0.5 || r == n as real - 0.5 ==> n % 2 == 0
  {
    var f := r.Floor;
    var rest := r - f as real;
    if rest < 0.5 || (rest == 0.5 && f % 2 == 0) then f else f + 1
  }

  function Clamp(n: int, lo: int, hi: int): int {
    if (if n < hi then n else hi) > lo then (if n < hi then n else hi) else lo
  }

  type Size = n: int | n >= 1 witness 1

  datatype Display = Display(screenW: Size, screenH: Size, modelW: Size, modelH: Size, originX: int, originY: int)

  function Scale(screen: Size, model: Size): (s: real)
    ensures s > 0.0
  {
    screen as real / model as real
  }

  function Times(v: real, s: real): real { v * s }

  const EDGE_TOLERANCE := 2

  predicate NearImage(x: real, model: Size) {
    (-EDGE_TOLERANCE) as real <= x <= (model - 1 + EDGE_TOLERANCE) as real
  }

  datatype OutOfRange = OutOfRange(axis: char)

  function ToScreen(d: Display, x: real, y: real): Result<(int, int), OutOfRange> {
    if !NearImage(x, d.modelW) then Err(OutOfRange('x'))
    else if !NearImage(y, d.modelH) then Err(OutOfRange('y'))
    else
      var sx := Round(Times(x, Scale(d.screenW, d.modelW))) + d.originX;
      var sy := Round(Times(y, Scale(d.screenH, d.modelH))) + d.originY;
      Ok((Clamp(sx, d.originX, d.originX + d.screenW - 1), Clamp(sy, d.originY, d.originY + d.screenH - 1)))
  }

  function ToModel(d: Display, sx: real, sy: real): (int, int) {
    var x := Round(Over(sx - d.originX as real, Scale(d.screenW, d.modelW)));
    var y := Round(Over(sy - d.originY as real, Scale(d.screenH, d.modelH)));
    (Clamp(x, 0, d.modelW - 1), Clamp(y, 0, d.modelH - 1))
  }

  function Over(v: real, s: real): real
    requires s != 0.0
  {
    v / s
  }

  predicate OnDesktop(d: Display, p: (int, int)) {
    d.originX <= p.0 < d.originX + d.screenW && d.originY <= p.1 < d.originY + d.screenH
  }

  predicate OnImage(d: Display, p: (int, int)) { 0 <= p.0 < d.modelW && 0 <= p.1 < d.modelH }

  /* One axis at a time: n pixels are mapped onto m pixels, in either direction. */

  function Map(n: Size, m: Size, v: real): (p: int)
    ensures 0 <= p < m
  {
    Clamp(Round(Times(v, Scale(m, n))), 0, m - 1)
  }

  lemma ToScreenByAxis(d: Display, x: real, y: real)
    requires ToScreen(d, x, y).Ok?
    ensures ToScreen(d, x, y).value ==
            (d.originX + Map(d.modelW, d.screenW, x), d.originY + Map(d.modelH, d.screenH, y))
  {
  }

  lemma Cancel(a: real, b: real, v: real)
    requires a > 0.0 && b > 0.0
    ensures v / (a / b) == v * (b / a)
  {
    var q, r := a / b, b / a;
    assert q * b == a && r * a == b;
    assert q * r == 1.0 by { assert q * r * a == q * (r * a) == a; assert (q * r - 1.0) * a == 0.0; }
    var w := v / q;
    assert w * q == v;
    assert w * q * r == w * (q * r) == w;
  }

  lemma OverIsTimes(n: Size, m: Size, v: real)
    ensures Over(v, Scale(m, n)) == Times(v, Scale(n, m))
  {
    Cancel(m as real, n as real, v);
  }

  lemma ScaleUndoes(n: Size, m: Size, v: real)
    ensures Times(Times(v, Scale(n, m)), Scale(m, n)) == v
  {
    OverIsTimes(n, m, v);
    Quotient(v, Scale(m, n));
  }

  lemma Quotient(v: real, s: real)
    requires s != 0.0
    ensures Times(Over(v, s), s) == v
  {
  }

  lemma ScaleOfAll(n: Size, m: Size)
    ensures Times(Scale(m, n), n as real) == m as real
  {
    Quotient(m as real, n as real);
  }

  lemma ToModelByAxis(d: Display, p: (int, int))
    ensures ToModel(d, p.0 as real, p.1 as real) ==
            (Map(d.screenW, d.modelW, (p.0 - d.originX) as real), Map(d.screenH, d.modelH, (p.1 - d.originY) as real))
  {
    OverIsTimes(d.modelW, d.screenW, p.0 as real - d.originX as real);
    OverIsTimes(d.modelH, d.screenH, p.1 as real - d.originY as real);
  }

  lemma RoundMonotone(r: real, q: real)
    requires r <= q
    ensures Round(r) <= Round(q)
  {
    if r == q { } else { assert Round(r) as real - Round(q) as real < 1.0; }
  }

  lemma Grow(s: real, x: real, y: real)
    requires s >= 0.0 && x <= y
    ensures Times(x, s) <= Times(y, s)
  {
    assert (y - x) * s >= 0.0;
    assert (y - x) * s == y * s - x * s;
  }

  lemma {:induction false} MapMonotone(n: Size, m: Size, x: real, y: real)
    requires x <= y
    ensures Map(n, m, x) <= Map(n, m, y)
  {
    Grow(Scale(m, n), x, y);
    RoundMonotone(Times(x, Scale(m, n)), Times(y, Scale(m, n)));
  }

  /** A pixel of the smaller side, stretched, stays a whole step inside the larger one. */
  lemma Stretched(n: real, m: real, i: real, s: real)
    requires 1.0 <= n <= m && 0.0 <= i <= n - 1.0 && s > 0.0 && Times(s, n) == m
    ensures s >= 1.0 && 0.0 <= Times(i, s) <= m - s
    ensures i == n - 1.0 ==> Times(i, s) == m - s
    ensures n < m ==> s > 1.0
    ensures n == m ==> s == 1.0
  {
    Strict(1.0, s, n);
    Strict(s, 1.0, n);
    Grow(s, i, n - 1.0);
    Spread(n, -1.0, s);
    Swap(n, s);
    Grow(s, 0.0, i);
  }

  lemma Signs(d: real, s: real)
    requires s > 0.0
    ensures d > 0.0 <==> d * s > 0.0
    ensures d < 0.0 <==> d * s < 0.0
  {
    if d > 0.0 { assert d * s > 0.0; }
    else if d < 0.0 { assert (-d) * s > 0.0; assert (-d) * s == -(d * s); }
    else { assert d * s == 0.0; }
  }

  /** Where the target is at least as large, a pixel of the source is never clamped. */
  lemma {:induction false} Unclamped(n: Size, m: Size, i: int)
    requires n <= m && 0 <= i < n
    ensures var s := Scale(m, n); var x := Times(i as real, s);
            && Map(n, m, i as real) == Round(x)
            && s >= 1.0 && 0.0 <= x <= m as real - s
            && (i == n - 1 ==> x == m as real - s)
            && (n < m ==> s > 1.0) && (n == m ==> s == 1.0 && x == i as real)
  {
    var s := Scale(m, n);
    ScaleOfAll(n, m);
    Stretched(n as real, m as real, i as real, s);
    RoundMonotone(Times(i as real, s), (m - 1) as real);
    RoundMonotone(0.0, Times(i as real, s));
  }

  lemma Nearby(i: real, s: real, back: real)
    requires s > 0.0
    ensures var p, x := Times(back, s), Times(i, s);
            && (back < i + 0.5 <==> p < x + 0.5 * s) && (back > i - 0.5 <==> p > x - 0.5 * s)
            && (back <= i + 0.5 <==> p <= x + 0.5 * s) && (back >= i - 0.5 <==> p >= x - 0.5 * s)
  {
    Spread(i, 0.5, s);
    Spread(i, -0.5, s);
    Strict(back, i + 0.5, s);
    Strict(i + -0.5, back, s);
  }

  lemma Spread(a: real, b: real, s: real)
    ensures Times(a + b, s) == Times(a, s) + b * s
  {
  }

  lemma Strict(a: real, b: real, s: real)
    requires s > 0.0
    ensures a < b <==> Times(a, s) < Times(b, s)
    ensures a <= b <==> Times(a, s) <= Times(b, s)
  {
    Signs(b - a, s);
    assert (b - a) * s == b * s - a * s;
  }

  lemma {:induction false} UpAndBack(n: Size, m: Size, i: int)
    requires n <= m && 0 <= i < n
    ensures Map(m, n, Map(n, m, i as real) as real) == i
  {
    Unclamped(n, m, i);
    var p := Map(n, m, i as real);
    ScaleUndoes(n, m, p as real);
    Nearby(i as real, Scale(m, n), Times(p as real, Scale(n, m)));
    Unclamped(m, m, p);
    if n == m { Unclamped(n, m, p); }
  }

  lemma {:induction false} MapIsStrict(n: Size, m: Size, i: int, j: int)
    requires n <= m && 0 <= i < j < n
    ensures Map(n, m, i as real) < Map(n, m, j as real)
  {
    MapMonotone(n, m, i as real, j as real);
    UpAndBack(n, m, i);
    UpAndBack(n, m, j);
  }

  lemma {:induction false} BackAndUp(n: Size, m: Size, p: int)
    requires n <= m && 0 <= p < m
    ensures -Scale(m, n) <= (Map(n, m, Map(m, n, p as real) as real) - p) as real <= Scale(m, n)
  {
    var back := Times(p as real, Scale(n, m));
    ScaleUndoes(n, m, p as real);
    var i := Map(m, n, p as real);
    Unclamped(n, m, i);
    Nearby(i as real, Scale(m, n), back);
    Grow(Scale(n, m), 0.0, p as real);
    assert back >= 0.0;
  }

  /** Round trips on every pixel of the smaller side need a target at least as large. */
  lemma {:induction false} RoundTripsNeedRoom(n: Size, m: Size, i: int)
    requires 0 <= i < n
    requires forall j :: 0 <= j < n ==> RoundTripsOnAxis(n, m, j)
    ensures Map(n, m, i as real) >= i
  {
    if i > 0 {
      RoundTripsNeedRoom(n, m, i - 1);
      assert RoundTripsOnAxis(n, m, i - 1) && RoundTripsOnAxis(n, m, i);
      MapMonotone(n, m, (i - 1) as real, i as real);
    }
  }

  /* The display as a whole. */

  predicate RoundTripsOnAxis(n: Size, m: Size, i: int) { Map(m, n, Map(n, m, i as real) as real) == i }

  predicate RoundTrips(d: Display, p: (int, int)) {
    var s := ToScreen(d, p.0 as real, p.1 as real);
    s.Ok? && ToModel(d, s.value.0 as real, s.value.1 as real) == p
  }

  /** Every image pixel survives the trip to the screen and back exactly when the screen is at
      least as large as the image on both axes. */
  lemma {:induction false} ImagePixelsRoundTripExactlyWhen(d: Display)
    ensures (forall p :: OnImage(d, p) ==> RoundTrips(d, p)) <==> d.modelW <= d.screenW && d.modelH <= d.screenH
  {
    forall p | OnImage(d, p)
      ensures RoundTrips(d, p) <==>
              RoundTripsOnAxis(d.modelW, d.screenW, p.0) && RoundTripsOnAxis(d.modelH, d.screenH, p.1)
    {
      ToScreenByAxis(d, p.0 as real, p.1 as real);
      ToModelByAxis(d, ToScreen(d, p.0 as real, p.1 as real).value);
    }
    if d.modelW <= d.screenW && d.modelH <= d.screenH {
      forall p | OnImage(d, p) ensures RoundTrips(d, p) {
        UpAndBack(d.modelW, d.screenW, p.0);
        UpAndBack(d.modelH, d.screenH, p.1);
      }
    }
    if forall p :: OnImage(d, p) ==> RoundTrips(d, p) {
      forall i | 0 <= i < d.modelW ensures RoundTripsOnAxis(d.modelW, d.screenW, i) {
        assert OnImage(d, (i, 0));
      }
      forall i | 0 <= i < d.modelH ensures RoundTripsOnAxis(d.modelH, d.screenH, i) {
        assert OnImage(d, (0, i));
      }
      RoundTripsNeedRoom(d.modelW, d.screenW, d.modelW - 1);
      RoundTripsNeedRoom(d.modelH, d.screenH, d.modelH - 1);
    }
  }

  /** ... and then no two pixels of a row or column meet on the screen. */
  lemma {:induction false} ToScreenIsStrictlyIncreasing(d: Display, p: (int, int), q: (int, int))
    requires d.modelW <= d.screenW && d.modelH <= d.screenH && OnImage(d, p) && OnImage(d, q)
    ensures ToScreen(d, p.0 as real, p.1 as real).Ok? && ToScreen(d, q.0 as real, q.1 as real).Ok?
    ensures var a, b := ToScreen(d, p.0 as real, p.1 as real).value, ToScreen(d, q.0 as real, q.1 as real).value;
            (p.0 < q.0 <==> a.0 < b.0) && (p.1 < q.1 <==> a.1 < b.1)
  {
    ToScreenByAxis(d, p.0 as real, p.1 as real);
    ToScreenByAxis(d, q.0 as real, q.1 as real);
    if p.0 < q.0 { MapIsStrict(d.modelW, d.screenW, p.0, q.0); }
    if q.0 < p.0 { MapIsStrict(d.modelW, d.screenW, q.0, p.0); }
    if p.1 < q.1 { MapIsStrict(d.modelH, d.screenH, p.1, q.1); }
    if q.1 < p.1 { MapIsStrict(d.modelH, d.screenH, q.1, p.1); }
  }

  /** A desktop position told to the model leads back to within one model pixel of itself. */
  lemma {:induction false} DesktopPixelsComeBackClose(d: Display, p: (int, int))
    requires d.modelW <= d.screenW && d.modelH <= d.screenH && OnDesktop(d, p)
    ensures var m := ToModel(d, p.0 as real, p.1 as real);
            var s := ToScreen(d, m.0 as real, m.1 as real);
            && OnImage(d, m) && s.Ok?
            && -Scale(d.screenW, d.modelW) <= (s.value.0 - p.0) as real <= Scale(d.screenW, d.modelW)
            && -Scale(d.screenH, d.modelH) <= (s.value.1 - p.1) as real <= Scale(d.screenH, d.modelH)
  {
    ToModelByAxis(d, p);
    var m := ToModel(d, p.0 as real, p.1 as real);
    ToScreenByAxis(d, m.0 as real, m.1 as real);
    BackAndUp(d.modelW, d.screenW, p.0 - d.originX);
    BackAndUp(d.modelH, d.screenH, p.1 - d.originY);
  }

  /** On a screen smaller than the image, it is the desktop pixels that survive exactly. */
  lemma {:induction false} DesktopPixelsRoundTripOnSmallScreens(d: Display, p: (int, int))
    requires d.screenW <= d.modelW && d.screenH <= d.modelH && OnDesktop(d, p)
    ensures var m := ToModel(d, p.0 as real, p.1 as real);
            ToScreen(d, m.0 as real, m.1 as real) == Ok(p)
  {
    ToModelByAxis(d, p);
    var m := ToModel(d, p.0 as real, p.1 as real);
    ToScreenByAxis(d, m.0 as real, m.1 as real);
    UpAndBack(d.screenW, d.modelW, p.0 - d.originX);
    UpAndBack(d.screenH, d.modelH, p.1 - d.originY);
  }

  /** A point is refused exactly when it is more than the tolerance off the image; within it, the
      point lands on the desktop, and where the image's nearest point on the axis would land
      unless that is inside. */
  lemma {:induction false} PointsLandOnTheDesktop(d: Display, x: real, y: real)
    ensures ToScreen(d, x, y).Ok? <==> -2.0 <= x <= (d.modelW + 1) as real && -2.0 <= y <= (d.modelH + 1) as real
    ensures ToScreen(d, x, y).Ok? ==> OnDesktop(d, ToScreen(d, x, y).value)
    ensures ToScreen(d, x, y).Ok? && x <= 0.0 ==> ToScreen(d, x, y).value.0 == d.originX
    ensures ToScreen(d, x, y).Ok? && x >= d.modelW as real ==> ToScreen(d, x, y).value.0 == d.originX + d.screenW - 1
    ensures ToScreen(d, x, y).Ok? && y <= 0.0 ==> ToScreen(d, x, y).value.1 == d.originY
    ensures ToScreen(d, x, y).Ok? && y >= d.modelH as real ==> ToScreen(d, x, y).value.1 == d.originY + d.screenH - 1
  {
    if ToScreen(d, x, y).Ok? {
      ToScreenByAxis(d, x, y);
      AxisEnds(d.modelW, d.screenW, x);
      AxisEnds(d.modelH, d.screenH, y);
    }
  }

  lemma AxisEnds(n: Size, m: Size, v: real)
    ensures v <= 0.0 ==> Map(n, m, v) == 0
    ensures v >= n as real ==> Map(n, m, v) == m - 1
  {
    var s := Scale(m, n);
    if v <= 0.0 {
      Grow(s, v, 0.0);
      RoundMonotone(Times(v, s), 0.0);
    }
    if v >= n as real {
      ScaleOfAll(n, m);
      Swap(s, n as real);
      Grow(s, n as real, v);
      RoundMonotone(m as real, Times(v, s));
    }
  }

  /* The size of the image. */

  function Max(a: int, b: int): int { if a >= b then a else b }

  function MinReal(a: real, b: real): real { if a <= b then a else b }

  /** `root` is the square root of r. */
  ghost predicate IsRoot(root: real, r: real) { root >= 0.0 && Times(root, root) == r }

  /** The scale compute_display uses; `root` is the square root it takes. */
  function IdealScale(w: Size, h: Size, maxEdge: nat, root: real): real {
    MinReal(1.0, MinReal(Over(maxEdge as real, Max(w, h) as real), root))
  }

  function EvenBelow(ideal: real): int { Max(2, ideal.Floor / 2 * 2) }

  function ComputeDisplay(w: Size, h: Size, maxEdge: nat, root: real): (int, int) {
    var scale := IdealScale(w, h, maxEdge, root);
    (EvenBelow(Times(w as real, scale)), EvenBelow(Times(h as real, scale)))
  }

  lemma {:induction false} EvenBelowMeaning(ideal: real)
    requires ideal >= 0.0
    ensures var n := EvenBelow(ideal);
            n % 2 == 0 && n >= 2 && (n as real <= ideal <==> ideal >= 2.0) && ideal < n as real + 2.0
  {
  }

  /** The ideal scale is the largest that keeps to the screen and to both budgets: any other keeps
      to them exactly when it is not above it. */
  lemma {:induction false} IdealScaleIsTheLargest(w: Size, h: Size, maxEdge: nat, maxPixels: nat, root: real,
      scale: real)
    requires IsRoot(root, Over(maxPixels as real, Times(w as real, h as real))) && scale >= 0.0
    ensures scale <= IdealScale(w, h, maxEdge, root) <==>
            && scale <= 1.0
            && Times(w as real, scale) <= maxEdge as real && Times(h as real, scale) <= maxEdge as real
            && Times(Times(w as real, scale), Times(h as real, scale)) <= maxPixels as real
  {
    EdgeFits(w, h, maxEdge as real, scale);
    AreaFits(w as real, h as real, maxPixels as real, root, scale);
  }

  lemma AtMost(x: real, a: real, b: real)
    requires b > 0.0
    ensures x <= Over(a, b) <==> Times(x, b) <= a
  {
    Quotient(a, b);
    var q := Over(a, b);
    assert q * b == a;
    Signs(x - q, b);
    assert (x - q) * b == x * b - q * b;
  }

  lemma Swap(x: real, y: real)
    ensures Times(x, y) == Times(y, x)
  {
  }

  lemma {:induction false} EdgeFits(w: Size, h: Size, edge: real, scale: real)
    requires scale >= 0.0
    ensures scale <= Over(edge, Max(w, h) as real) <==>
              Times(w as real, scale) <= edge && Times(h as real, scale) <= edge
  {
    AtMost(scale, edge, Max(w, h) as real);
    Swap(scale, Max(w, h) as real);
    Grow(scale, w as real, Max(w, h) as real);
    Grow(scale, h as real, Max(w, h) as real);
  }

  lemma {:induction false} AreaFits(w: real, h: real, pixels: real, root: real, scale: real)
    requires w > 0.0 && h > 0.0 && Times(w, h) > 0.0
    requires IsRoot(root, Over(pixels, Times(w, h))) && scale >= 0.0
    ensures scale <= root <==> Times(Times(w, scale), Times(h, scale)) <= pixels
  {
    Squares(scale, root);
    AtMost(Times(scale, scale), pixels, Times(w, h));
    Regroup(w, h, scale);
  }

  lemma Regroup(w: real, h: real, s: real)
    ensures Times(Times(w, s), Times(h, s)) == Times(Times(s, s), Times(w, h))
  {
    assert (w * s) * (h * s) == (s * s) * (w * h);
  }

  lemma Squares(x: real, y: real)
    requires x >= 0.0 && y >= 0.0
    ensures x <= y <==> Times(x, x) <= Times(y, y)
  {
    if x <= y {
      Grow(x, x, y);
      Grow(y, x, y);
      Swap(x, y);
    } else {
      Strict(y, x, x);
      Grow(y, y, x);
      Swap(x, y);
    }
  }

  lemma Products(a: real, b: real, c: real, d: real)
    requires 0.0 <= a <= c && 0.0 <= b <= d
    ensures Times(a, b) <= Times(c, d)
  {
    Grow(b, a, c);
    Grow(c, b, d);
    Swap(b, c);
    Swap(d, c);
  }

  lemma {:induction false} IdealScaleRange(w: Size, h: Size, maxEdge: nat, root: real)
    requires root >= 0.0
    ensures var s := IdealScale(w, h, maxEdge, root);
            && 0.0 <= s <= 1.0
            && 0.0 <= Times(w as real, s) <= w as real && 0.0 <= Times(h as real, s) <= h as real
  {
    AtMost(0.0, maxEdge as real, Max(w, h) as real);
    var s := IdealScale(w, h, maxEdge, root);
    Products(w as real, s, w as real, 1.0);
    Products(h as real, s, h as real, 1.0);
    Grow(s, 0.0, w as real);
    Grow(s, 0.0, h as real);
  }

  /** What compute_display promises, wherever the ideal size is at least 2 on both axes. */
  lemma {:induction false} ComputedSizesMeetTheirBudgets(w: Size, h: Size, maxEdge: nat, maxPixels: nat, root: real)
    requires IsRoot(root, Over(maxPixels as real, Times(w as real, h as real)))
    requires var s := IdealScale(w, h, maxEdge, root); Times(w as real, s) >= 2.0 && Times(h as real, s) >= 2.0
    ensures var (mw, mh) := ComputeDisplay(w, h, maxEdge, root); var s := IdealScale(w, h, maxEdge, root);
            && mw % 2 == 0 && mh % 2 == 0
            && mw <= w && mh <= h && mw <= maxEdge && mh <= maxEdge
            && Times(mw as real, mh as real) <= maxPixels as real
            && mw as real <= Times(w as real, s) < mw as real + 2.0
            && mh as real <= Times(h as real, s) < mh as real + 2.0
            && var skew, long := Times(mw as real, h as real) - Times(mh as real, w as real), Max(w, h) as real;
               -2.0 * long < skew < 2.0 * long
  {
    var s := IdealScale(w, h, maxEdge, root);
    IdealScaleRange(w, h, maxEdge, root);
    EvenBelowMeaning(Times(w as real, s));
    EvenBelowMeaning(Times(h as real, s));
    IdealScaleIsTheLargest(w, h, maxEdge, maxPixels, root, s);
    var (mw, mh) := ComputeDisplay(w, h, maxEdge, root);
    Products(mw as real, mh as real, Times(w as real, s), Times(h as real, s));
    Skew(w as real, h as real, s, mw as real, mh as real);
  }

  lemma Skew(w: real, h: real, s: real, mw: real, mh: real)
    requires w > 0.0 && h > 0.0 && mw <= Times(w, s) < mw + 2.0 && mh <= Times(h, s) < mh + 2.0
    ensures -2.0 * h < Times(mw, h) - Times(mh, w) < 2.0 * w
  {
    Lag(Times(w, s), mw, h);
    Lag(Times(h, s), mh, w);
    Across(w, h, s);
    Between(Times(Times(w, s), h), Times(mw, h), Times(mh, w), w, h);
  }

  lemma Between(a: real, p: real, q: real, w: real, h: real)
    requires p <= a < p + 2.0 * h && q <= a < q + 2.0 * w
    ensures -2.0 * h < p - q < 2.0 * w
  {
  }

  lemma Across(w: real, h: real, s: real)
    ensures Times(Times(w, s), h) == Times(Times(h, s), w)
  {
    assert (w * s) * h == (h * s) * w;
  }

  lemma Lag(a: real, m: real, h: real)
    requires h > 0.0 && m <= a < m + 2.0
    ensures Times(m, h) <= Times(a, h) < Times(m, h) + 2.0 * h
  {
    Strict(m, a, h);
    Strict(a, m + 2.0, h);
    Spread(m, 2.0, h);
  }

  /** A side whose ideal is under 2 pixels is widened to 2, above its ideal; any other keeps to it. */
  lemma {:induction false} SidesKeepToTheIdealExactlyWhen(w: Size, h: Size, maxEdge: nat, root: real)
    requires root >= 0.0
    ensures var (mw, mh) := ComputeDisplay(w, h, maxEdge, root); var s := IdealScale(w, h, maxEdge, root);
            && (mw as real <= Times(w as real, s) <==> Times(w as real, s) >= 2.0)
            && (mh as real <= Times(h as real, s) <==> Times(h as real, s) >= 2.0)
  {
    var s := IdealScale(w, h, maxEdge, root);
    IdealScaleRange(w, h, maxEdge, root);
    EvenBelowMeaning(Times(w as real, s));
    EvenBelowMeaning(Times(h as real, s));
  }

  /** Such a side: 1000 pixels wide with a budget of one for its edge comes out at 2, above both. */
  lemma {:induction false} SomeSidesAreWidened()
    ensures IsRoot(1.0, Over(2000.0, Times(1000.0, 2.0)))
    ensures ComputeDisplay(1000, 2, 1, 1.0) == (2, 2) && Times(1000.0, IdealScale(1000, 2, 1, 1.0)) == 1.0
  {
    assert Times(1000.0, 2.0) == 2000.0 && Over(2000.0, 2000.0) == 1.0;
    assert Over(1.0, 1000.0) == 0.001;
    assert IdealScale(1000, 2, 1, 1.0) == 0.001;
    assert Times(1000.0, 0.001) == 1.0 && Times(2.0, 0.001) == 0.002;
    assert (1.0).Floor == 1 && (0.002).Floor == 0;
  }

  /** On every screen of at least 2x2, whatever the budgets, the computed image round-trips. */
  lemma {:induction false} ComputedDisplaysRoundTrip(d: Display, maxEdge: nat, root: real, p: (int, int))
    requires root >= 0.0 && d.screenW >= 2 && d.screenH >= 2
    requires (d.modelW, d.modelH) == ComputeDisplay(d.screenW, d.screenH, maxEdge, root)
    requires OnImage(d, p)
    ensures RoundTrips(d, p)
  {
    var s := IdealScale(d.screenW, d.screenH, maxEdge, root);
    IdealScaleRange(d.screenW, d.screenH, maxEdge, root);
    EvenBelowMeaning(Times(d.screenW as real, s));
    EvenBelowMeaning(Times(d.screenH as real, s));
    ImagePixelsRoundTripExactlyWhen(d);
  }
}
