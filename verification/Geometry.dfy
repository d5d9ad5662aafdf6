/** Planar geometry of areas of interest: ray casting, the shoelace area and centroids, over the reals. */
module Geometry {

  datatype Point = Point(x: real, y: real)

  type Ring = seq<Point>

  datatype Box = Box(minX: real, minY: real, maxX: real, maxY: real)

  predicate Within(q: Point, b: Box) {
    b.minX <= q.x <= b.maxX && b.minY <= q.y <= b.maxY
  }

  /** Inside, not counting the upper edges. */
  predicate WithinHalfOpen(q: Point, b: Box) {
    b.minX <= q.x < b.maxX && b.minY <= q.y < b.maxY
  }

  predicate Covers(b: Box, ring: Ring) {
    forall i :: 0 <= i < |ring| ==> Within(ring[i], b)
  }

  /** A position list the geometry constructor accepts: at least four positions, closed. */
  predicate ValidRing(ring: Ring) {
    |ring| >= 4 && ring[0] == ring[|ring| - 1]
  }

  function Reversed(ring: Ring): (r: Ring)
    ensures |r| == |ring| && forall i :: 0 <= i < |ring| ==> r[i] == ring[|ring| - 1 - i]
  {
    seq(|ring|, i requires 0 <= i < |ring| => ring[|ring| - 1 - i])
  }

  // ---- Ray casting ----

  predicate Straddles(q: Point, a: Point, b: Point) {
    (a.y > q.y) != (b.y > q.y)
  }

  /** Where the edge meets the horizontal line through q. */
  function MeetsAt(q: Point, a: Point, b: Point): real
    requires Straddles(q, a, b)
  {
    (b.x - a.x) * (q.y - a.y) / (b.y - a.y) + a.x
  }

  predicate Crosses(q: Point, a: Point, b: Point) {
    Straddles(q, a, b) && q.x < MeetsAt(q, a, b)
  }

  function Before(n: nat, i: nat): nat
    requires i < n
  {
    if i == 0 then n - 1 else i - 1
  }

  predicate EdgeCrosses(q: Point, ring: Ring, i: nat)
    requires i < |ring|
  {
    Crosses(q, ring[i], ring[Before(|ring|, i)])
  }

  /** Whether an odd number of the first n edges is crossed. */
  predicate OddCrossings(q: Point, ring: Ring, n: nat)
    requires n <= |ring|
  {
    n > 0 && OddCrossings(q, ring, n - 1) != EdgeCrosses(q, ring, n - 1)
  }

  predicate Inside(q: Point, ring: Ring) {
    OddCrossings(q, ring, |ring|)
  }

  method PointInRing(q: Point, ring: Ring) returns (inside: bool)
    ensures inside == Inside(q, ring)
  {
    inside := false;
    var j := |ring| - 1;
    for i := 0 to |ring|
      invariant |ring| > 0 && i < |ring| ==> j == Before(|ring|, i)
      invariant inside == OddCrossings(q, ring, i)
    {
      if Crosses(q, ring[i], ring[j]) {
        inside := !inside;
      }
      j := i;
    }
  }

  lemma Quotient(num: real, t: real, den: real)
    requires den != 0.0 && num == t * den
    ensures num / den == t
  {}

  lemma UnitFraction(t: real, num: real, den: real)
    requires t * den == num && den != 0.0 && (0.0 <= num <= den || den <= num <= 0.0)
    ensures 0.0 <= t <= 1.0
  {}

  lemma PartOf(d: real, t: real)
    requires 0.0 <= t <= 1.0
    ensures if d >= 0.0 then 0.0 <= d * t <= d else d <= d * t <= 0.0
  {}

  lemma Regroup(d: real, num: real, t: real, den: real)
    requires num == t * den
    ensures d * num == (d * t) * den
  {}

  /** A straddling edge meets the line at a point of the edge: its position along it, from a to b. */
  lemma MeetsAlong(q: Point, a: Point, b: Point) returns (t: real)
    requires Straddles(q, a, b)
    ensures 0.0 <= t <= 1.0 && t * (b.y - a.y) == q.y - a.y
    ensures MeetsAt(q, a, b) == (b.x - a.x) * t + a.x
  {
    var num, den := q.y - a.y, b.y - a.y;
    t := num / den;
    UnitFraction(t, num, den);
    Regroup(b.x - a.x, num, t, den);
    Quotient((b.x - a.x) * num, (b.x - a.x) * t, den);
  }

  lemma MeetsBetween(q: Point, a: Point, b: Point, lo: real, hi: real)
    requires Straddles(q, a, b) && lo <= a.x <= hi && lo <= b.x <= hi
    ensures lo <= MeetsAt(q, a, b) <= hi
  {
    var t := MeetsAlong(q, a, b);
    Interpolated(a.x, b.x, t, lo, hi);
  }

  lemma Interpolated(from: real, to: real, t: real, lo: real, hi: real)
    requires 0.0 <= t <= 1.0 && lo <= from <= hi && lo <= to <= hi
    ensures lo <= (to - from) * t + from <= hi
  {
    var d := to - from;
    PartOf(d, t);
    var part := d * t;
    assert lo <= part + from <= hi;
  }

  /** Left of everything each straddling edge is crossed, and their number round a cycle is even. */
  lemma {:induction false} ParityTelescopes(q: Point, ring: Ring, b: Box, n: nat)
    requires Covers(b, ring) && q.x < b.minX && 0 < n <= |ring|
    ensures OddCrossings(q, ring, n) == ((ring[n - 1].y > q.y) != (ring[|ring| - 1].y > q.y))
  {
    var i := n - 1;
    var p, r := ring[i], ring[Before(|ring|, i)];
    assert Within(p, b) && Within(r, b);
    if Straddles(q, p, r) { MeetsBetween(q, p, r, b.minX, b.maxX); }
    if n > 1 { ParityTelescopes(q, ring, b, n - 1); }
    else { assert !OddCrossings(q, ring, 0); }
  }

  lemma {:induction false} NoCrossings(q: Point, ring: Ring, b: Box, n: nat)
    requires Covers(b, ring) && (q.y >= b.maxY || q.y < b.minY || q.x >= b.maxX) && n <= |ring|
    ensures !OddCrossings(q, ring, n)
  {
    if n > 0 {
      NoCrossings(q, ring, b, n - 1);
      var i := n - 1;
      var p, r := ring[i], ring[Before(|ring|, i)];
      assert Within(p, b) && Within(r, b);
      if Straddles(q, p, r) { MeetsBetween(q, p, r, b.minX, b.maxX); }
    }
  }

  /** A point found inside lies in every box that covers the ring, off its upper edges. */
  lemma InsideIsWithin(q: Point, ring: Ring, b: Box)
    requires Inside(q, ring) && Covers(b, ring)
    ensures WithinHalfOpen(q, b)
  {
    if q.y >= b.maxY || q.y < b.minY || q.x >= b.maxX {
      NoCrossings(q, ring, b, |ring|);
    } else if q.x < b.minX {
      ParityTelescopes(q, ring, b, |ring|);
    }
  }

  lemma SameFraction(t: real, u: real, d: real, num: real)
    requires t * d == num && u * (-d) == num - d && d != 0.0
    ensures u == 1.0 - t
  {
    assert (u + t - 1.0) * d == u * d + t * d - d;
    ZeroFactor(u + t - 1.0, d);
  }

  lemma ZeroFactor(a: real, d: real)
    requires a * d == 0.0 && d != 0.0
    ensures a == 0.0
  {}

  lemma SameMeeting(x: real, y: real, t: real)
    ensures (y - x) * t + x == (x - y) * (1.0 - t) + y
  {}

  lemma CrossesSymmetric(q: Point, a: Point, b: Point)
    ensures Crosses(q, a, b) == Crosses(q, b, a)
  {
    if Straddles(q, a, b) {
      var t := MeetsAlong(q, a, b);
      var u := MeetsAlong(q, b, a);
      SameFraction(t, u, b.y - a.y, q.y - a.y);
      SameMeeting(a.x, b.x, t);
    }
  }

  /** The edge reaches past q's height, from below inclusive, and q lies strictly to the left of it. */
  predicate PassesRight(q: Point, a: Point, b: Point) {
    || (a.y <= q.y < b.y && (q.x - a.x) * (b.y - a.y) < (b.x - a.x) * (q.y - a.y))
    || (b.y <= q.y < a.y && (q.x - b.x) * (a.y - b.y) < (a.x - b.x) * (q.y - b.y))
  }

  lemma ScaledOrder(a: real, b: real, d: real)
    requires d > 0.0
    ensures a < b <==> a * d < b * d
  {
    assert (b - a) * d == b * d - a * d;
  }

  lemma RisingCrosses(q: Point, a: Point, b: Point)
    requires a.y <= q.y < b.y
    ensures Crosses(q, a, b) <==> (q.x - a.x) * (b.y - a.y) < (b.x - a.x) * (q.y - a.y)
  {
    var t := MeetsAlong(q, a, b);
    ScaledOrder(q.x - a.x, (b.x - a.x) * t, b.y - a.y);
    Regroup(b.x - a.x, q.y - a.y, t, b.y - a.y);
  }

  lemma CrossesIff(q: Point, a: Point, b: Point)
    ensures Crosses(q, a, b) <==> PassesRight(q, a, b)
  {
    if a.y <= q.y < b.y { RisingCrosses(q, a, b); }
    if b.y <= q.y < a.y {
      RisingCrosses(q, b, a);
      CrossesSymmetric(q, a, b);
    }
  }

  /** The edge that ends in the i-th position, the one from the last position for the first. */
  predicate EdgePasses(q: Point, ring: Ring, i: nat) {
    i < |ring| && PassesRight(q, ring[i], ring[if i == 0 then |ring| - 1 else i - 1])
  }

  lemma EdgeCrossesIff(q: Point, ring: Ring, i: nat)
    requires i < |ring|
    ensures EdgeCrosses(q, ring, i) <==> EdgePasses(q, ring, i)
  {
    CrossesIff(q, ring[i], ring[Before(|ring|, i)]);
  }

  /** Of the first n edges, those that pass to the right of q. */
  function RightEdges(q: Point, ring: Ring, n: nat): set<nat> {
    set i: nat | i < n && EdgePasses(q, ring, i)
  }

  lemma OneMoreEdge(before: set<nat>, after: set<nat>, n: nat, hit: bool)
    requires n !in before && after == if hit then before + {n} else before
    ensures (|after| % 2 == 1) == ((|before| % 2 == 1) != hit)
  {}

  lemma RightEdgesGrow(q: Point, ring: Ring, n: nat)
    ensures RightEdges(q, ring, n + 1) == if EdgePasses(q, ring, n) then RightEdges(q, ring, n) + {n} else RightEdges(q, ring, n)
  {}

  lemma {:induction false} OddCount(q: Point, ring: Ring, n: nat)
    requires n <= |ring|
    ensures OddCrossings(q, ring, n) <==> |RightEdges(q, ring, n)| % 2 == 1
  {
    if n == 0 {
      assert RightEdges(q, ring, n) == {};
    } else {
      OddCount(q, ring, n - 1);
      EdgeCrossesIff(q, ring, n - 1);
      RightEdgesGrow(q, ring, n - 1);
      OneMoreEdge(RightEdges(q, ring, n - 1), RightEdges(q, ring, n), n - 1, EdgePasses(q, ring, n - 1));
    }
  }

  /** A point is found inside exactly when an odd number of edges passes to the right of it. */
  lemma InsideCounts(q: Point, ring: Ring)
    ensures Inside(q, ring) <==> |set i: nat | i < |ring| && EdgePasses(q, ring, i)| % 2 == 1
  {
    OddCount(q, ring, |ring|);
  }

  /** Parity of the crossings of edges lo, lo + 1, ..., |ring| - 1. */
  predicate OddFrom(q: Point, ring: Ring, lo: nat)
    requires lo <= |ring|
    decreases |ring| - lo
  {
    lo < |ring| && EdgeCrosses(q, ring, lo) != OddFrom(q, ring, lo + 1)
  }

  lemma {:induction false} SplitParity(q: Point, ring: Ring, k: nat)
    requires k <= |ring|
    ensures Inside(q, ring) == (OddCrossings(q, ring, k) != OddFrom(q, ring, k))
    decreases |ring| - k
  {
    if k < |ring| { SplitParity(q, ring, k + 1); }
  }

  lemma {:induction false} ReversedParity(q: Point, ring: Ring, k: nat)
    requires 1 <= k <= |ring|
    ensures OddCrossings(q, Reversed(ring), k)
         == (EdgeCrosses(q, ring, 0) != (if k == 1 then false else OddFrom(q, ring, |ring| - k + 1)))
  {
    var n, r := |ring|, Reversed(ring);
    if k == 1 {
      assert !OddCrossings(q, r, 0);
      CrossesSymmetric(q, r[0], r[n - 1]);
    } else {
      ReversedParity(q, ring, k - 1);
      CrossesSymmetric(q, r[k - 1], r[k - 2]);
      assert EdgeCrosses(q, r, k - 1) == EdgeCrosses(q, ring, n - k + 1);
    }
  }

  /** The answer does not depend on the direction in which the ring is listed. */
  lemma InsideReversed(q: Point, ring: Ring)
    ensures Inside(q, Reversed(ring)) == Inside(q, ring)
  {
    if ring != [] {
      ReversedParity(q, ring, |ring|);
      SplitParity(q, ring, 1);
      assert !OddCrossings(q, ring, 0);
    }
  }

  // ---- Boxes, sums and means ----

  function MinOf(vs: seq<real>): (m: real)
    requires vs != []
    ensures forall i :: 0 <= i < |vs| ==> m <= vs[i]
    ensures m in vs
  {
    var last := vs[|vs| - 1];
    if |vs| == 1 then last
    else
      var m := MinOf(vs[..|vs| - 1]);
      if last < m then last else m
  }

  function MaxOf(vs: seq<real>): (m: real)
    requires vs != []
    ensures forall i :: 0 <= i < |vs| ==> vs[i] <= m
    ensures m in vs
  {
    var last := vs[|vs| - 1];
    if |vs| == 1 then last
    else
      var m := MaxOf(vs[..|vs| - 1]);
      if last > m then last else m
  }

  function Xs(ring: Ring): (r: seq<real>)
    ensures |r| == |ring| && forall i :: 0 <= i < |ring| ==> r[i] == ring[i].x
  {
    seq(|ring|, i requires 0 <= i < |ring| => ring[i].x)
  }

  function Ys(ring: Ring): (r: seq<real>)
    ensures |r| == |ring| && forall i :: 0 <= i < |ring| ==> r[i] == ring[i].y
  {
    seq(|ring|, i requires 0 <= i < |ring| => ring[i].y)
  }

  function RingBox(ring: Ring): (b: Box)
    requires ring != []
    ensures Covers(b, ring)
    ensures b.minX in Xs(ring) && b.maxX in Xs(ring) && b.minY in Ys(ring) && b.maxY in Ys(ring)
  {
    var b := Box(MinOf(Xs(ring)), MinOf(Ys(ring)), MaxOf(Xs(ring)), MaxOf(Ys(ring)));
    assert Covers(b, ring) by {
      forall i | 0 <= i < |ring| ensures Within(ring[i], b) {
        assert Xs(ring)[i] == ring[i].x && Ys(ring)[i] == ring[i].y;
      }
    }
    b
  }

  function Sum(vs: seq<real>): real {
    if vs == [] then 0.0 else Sum(vs[..|vs| - 1]) + vs[|vs| - 1]
  }

  function Dot(ws: seq<real>, vs: seq<real>): real
    requires |ws| == |vs|
  {
    if ws == [] then 0.0
    else Dot(ws[..|ws| - 1], vs[..|vs| - 1]) + ws[|ws| - 1] * vs[|vs| - 1]
  }

  predicate NonNegative(vs: seq<real>) {
    forall i :: 0 <= i < |vs| ==> vs[i] >= 0.0
  }

  predicate Between(vs: seq<real>, lo: real, hi: real) {
    forall i :: 0 <= i < |vs| ==> lo <= vs[i] <= hi
  }

  lemma Monotone(a: real, b: real, d: real)
    requires a * d <= b * d && d > 0.0
    ensures a <= b
  {}

  predicate AtLeast(s: real, lo: real, d: real) {
    lo * d <= s
  }

  predicate AtMost(s: real, hi: real, d: real) {
    s <= hi * d
  }

  lemma QuotientBounds(s: real, d: real, lo: real, hi: real)
    requires d > 0.0 && AtLeast(s, lo, d) && AtMost(s, hi, d)
    ensures lo <= s / d <= hi
  {
    var t := s / d;
    assert t * d == s;
    Monotone(lo, t, d);
    Monotone(t, hi, d);
  }

  lemma OneMoreBelow(w: real, v: real, lo: real, weights: real, sum: real)
    requires w >= 0.0 && lo <= v && AtLeast(sum, lo, weights)
    ensures AtLeast(sum + w * v, lo, weights + w)
  {
    assert lo * w <= w * v;
  }

  lemma OneMoreAbove(w: real, v: real, hi: real, weights: real, sum: real)
    requires w >= 0.0 && v <= hi && AtMost(sum, hi, weights)
    ensures AtMost(sum + w * v, hi, weights + w)
  {
    assert w * v <= hi * w;
  }

  lemma {:induction false} DotAtLeast(ws: seq<real>, vs: seq<real>, lo: real, hi: real)
    requires |ws| == |vs| && NonNegative(ws) && Between(vs, lo, hi)
    ensures AtLeast(Dot(ws, vs), lo, Sum(ws))
  {
    if ws != [] {
      var n := |ws| - 1;
      DotAtLeast(ws[..n], vs[..n], lo, hi);
      OneMoreBelow(ws[n], vs[n], lo, Sum(ws[..n]), Dot(ws[..n], vs[..n]));
    }
  }

  lemma {:induction false} DotAtMost(ws: seq<real>, vs: seq<real>, lo: real, hi: real)
    requires |ws| == |vs| && NonNegative(ws) && Between(vs, lo, hi)
    ensures AtMost(Dot(ws, vs), hi, Sum(ws))
  {
    if ws != [] {
      var n := |ws| - 1;
      DotAtMost(ws[..n], vs[..n], lo, hi);
      OneMoreAbove(ws[n], vs[n], hi, Sum(ws[..n]), Dot(ws[..n], vs[..n]));
    }
  }

  /** A weighted average lies where its terms do. */
  lemma WeightedAverage(ws: seq<real>, vs: seq<real>, lo: real, hi: real)
    requires |ws| == |vs| && NonNegative(ws) && Between(vs, lo, hi) && Sum(ws) > 0.0
    ensures lo <= Dot(ws, vs) / Sum(ws) <= hi
  {
    DotAtLeast(ws, vs, lo, hi);
    DotAtMost(ws, vs, lo, hi);
    QuotientBounds(Dot(ws, vs), Sum(ws), lo, hi);
  }

  function Ones(n: nat): (ws: seq<real>)
    ensures |ws| == n && NonNegative(ws) && Sum(ws) == n as real
  {
    if n == 0 then []
    else
      var ws := Ones(n - 1);
      assert (ws + [1.0])[..n - 1] == ws;
      ws + [1.0]
  }

  lemma {:induction false} DotOnes(vs: seq<real>)
    ensures Dot(Ones(|vs|), vs) == Sum(vs)
  {
    if vs != [] {
      var n := |vs| - 1;
      DotOnes(vs[..n]);
      assert Ones(n + 1)[..n] == Ones(n) && Ones(n + 1)[n] == 1.0;
    }
  }

  lemma PlainAverage(vs: seq<real>, lo: real, hi: real)
    requires vs != [] && Between(vs, lo, hi)
    ensures lo <= Mean(vs) <= hi
  {
    DotOnes(vs);
    WeightedAverage(Ones(|vs|), vs, lo, hi);
  }

  // ---- Shoelace ----

  function CrossProduct(a: Point, b: Point): real {
    a.x * b.y - b.x * a.y
  }

  function Shoelace(pts: seq<Point>): real {
    if |pts| < 2 then 0.0
    else Shoelace(pts[..|pts| - 1]) + CrossProduct(pts[|pts| - 2], pts[|pts| - 1])
  }

  const METERS_PER_DEGREE := 111320.0

  function Mean(vs: seq<real>): real
    requires vs != []
  {
    Sum(vs) / |vs| as real
  }

  function ScaledPoint(p: Point, kx: real, ky: real): Point {
    Point(p.x * kx, p.y * ky)
  }

  function Scaled(ring: Ring, kx: real, ky: real): (r: Ring)
    ensures |r| == |ring| && forall i :: 0 <= i < |ring| ==> r[i] == ScaledPoint(ring[i], kx, ky)
  {
    seq(|ring|, i requires 0 <= i < |ring| => ScaledPoint(ring[i], kx, ky))
  }

  function Abs(v: real): real {
    if v < 0.0 then -v else v
  }

  /** The area in square metres; `metersAt` gives the metres per degree of longitude at a latitude. */
  function RingArea(metersAt: real -> real, ring: Ring): real {
    if |ring| < 4 then 0.0
    else Abs(Shoelace(Scaled(ring, metersAt(Mean(Ys(ring))), METERS_PER_DEGREE))) / 2.0
  }

  method ComputeRingArea(metersAt: real -> real, ring: Ring) returns (area: real)
    ensures area == RingArea(metersAt, ring)
    ensures area >= 0.0 && (|ring| < 4 ==> area == 0.0)
  {
    if |ring| < 4 {
      return 0.0;
    }
    var meanLatitude := Mean(Ys(ring));
    var pts := Scaled(ring, metersAt(meanLatitude), METERS_PER_DEGREE);
    area := 0.0;
    assert Shoelace(pts[..1]) == 0.0;
    for i := 0 to |pts| - 1
      invariant area == Shoelace(pts[..i + 1])
    {
      assert pts[..i + 2][..i + 1] == pts[..i + 1];
      area := area + CrossProduct(pts[i], pts[i + 1]);
    }
    assert pts[..|pts|] == pts;
    return Abs(area) / 2.0;
  }

  lemma {:induction false} ShoelaceFront(pts: seq<Point>)
    requires |pts| >= 2
    ensures Shoelace(pts) == CrossProduct(pts[0], pts[1]) + Shoelace(pts[1..])
  {
    var n := |pts| - 1;
    if n >= 2 {
      ShoelaceFront(pts[..n]);
      assert pts[..n][1..] == pts[1..][..n - 1];
    } else {
      assert Shoelace(pts[..1]) == 0.0 && Shoelace(pts[1..]) == 0.0;
    }
  }

  lemma {:induction false} ShoelaceReversed(pts: seq<Point>)
    ensures Shoelace(Reversed(pts)) == -Shoelace(pts)
  {
    var n := |pts| - 1;
    if n >= 1 {
      ShoelaceReversed(pts[..n]);
      var r := Reversed(pts);
      ShoelaceFront(r);
      assert r[1..] == Reversed(pts[..n]);
    }
  }

  lemma {:induction false} SumFront(vs: seq<real>)
    requires vs != []
    ensures Sum(vs) == vs[0] + Sum(vs[1..])
  {
    var n := |vs| - 1;
    if n > 0 {
      SumFront(vs[..n]);
      assert vs[..n][1..] == vs[1..][..n - 1];
    }
  }

  lemma {:induction false} SumReversed(ring: Ring)
    ensures Sum(Ys(Reversed(ring))) == Sum(Ys(ring))
  {
    if ring != [] {
      var n := |ring| - 1;
      SumReversed(ring[..n]);
      var vs := Ys(Reversed(ring));
      SumFront(vs);
      assert vs[1..] == Ys(Reversed(ring[..n]));
      assert Ys(ring)[..n] == Ys(ring[..n]);
    }
  }

  /** Listing the ring the other way round gives the same area. */
  lemma AreaReversed(metersAt: real -> real, ring: Ring)
    ensures RingArea(metersAt, Reversed(ring)) == RingArea(metersAt, ring)
  {
    if |ring| >= 4 {
      SumReversed(ring);
      var kx := metersAt(Mean(Ys(ring)));
      ShoelaceReversed(Scaled(ring, kx, METERS_PER_DEGREE));
      assert Scaled(Reversed(ring), kx, METERS_PER_DEGREE) == Reversed(Scaled(ring, kx, METERS_PER_DEGREE));
    }
  }

  // ---- What the area is ----

  /** The cross products of the first n edges. */
  function EdgeSum(ring: Ring, n: nat): real
    requires n == 0 || n < |ring|
  {
    if n == 0 then 0.0 else EdgeSum(ring, n - 1) + (ring[n - 1].x * ring[n].y - ring[n].x * ring[n - 1].y)
  }

  lemma {:induction false} ShoelaceIsSum(ring: Ring, n: nat)
    requires n < |ring|
    ensures Shoelace(ring[..n + 1]) == EdgeSum(ring, n)
  {
    if n > 0 {
      ShoelaceIsSum(ring, n - 1);
      assert ring[..n + 1][..n] == ring[..n];
    }
  }

  lemma Distribute(k: real, a: real, b: real)
    ensures k * a + k * b == k * (a + b)
  {}

  lemma MeanIs(vs: seq<real>, m: real)
    requires vs != [] && m * |vs| as real == Sum(vs)
    ensures Mean(vs) == m
  {}

  /** The ring in metres: 111320 to a degree of latitude, k to one of longitude. */
  predicate InMetres(pts: Ring, ring: Ring, k: real) {
    && |pts| == |ring|
    && (forall i :: 0 <= i < |ring| ==> pts[i].x == ring[i].x * k && pts[i].y == ring[i].y * 111320.0)
  }

  lemma OneInMetres(pts: Ring, ring: Ring, k: real)
    requires InMetres(pts, ring, k)
    ensures pts == Scaled(ring, k, METERS_PER_DEGREE)
  {
    forall i | 0 <= i < |ring| ensures pts[i] == Scaled(ring, k, METERS_PER_DEGREE)[i] {
      assert pts[i] == Point(pts[i].x, pts[i].y);
    }
  }

  /** The area is half the absolute sum of the cross products of the ring in metres, with as many to a degree of
      longitude as there are at the mean latitude of all positions listed. */
  lemma AreaIsHalf(metersAt: real -> real, ring: Ring, m: real, pts: Ring)
    requires |ring| >= 4 && m * |ring| as real == Sum(Ys(ring)) && InMetres(pts, ring, metersAt(m))
    ensures var c := EdgeSum(pts, |pts| - 1); 2.0 * RingArea(metersAt, ring) == if c < 0.0 then -c else c
  {
    MeanIs(Ys(ring), m);
    OneInMetres(pts, ring, metersAt(m));
    WholeSum(pts);
    HalfOf(RingArea(metersAt, ring), Shoelace(pts));
  }

  lemma WholeSum(pts: Ring)
    requires pts != []
    ensures Shoelace(pts) == EdgeSum(pts, |pts| - 1)
  {
    ShoelaceIsSum(pts, |pts| - 1);
    assert pts[..|pts|] == pts;
  }

  lemma HalfOf(area: real, sum: real)
    requires area == Abs(sum) / 2.0
    ensures 2.0 * area == if sum < 0.0 then -sum else sum
  {}

  function ShiftedEast(ring: Ring, d: real): (r: Ring)
    ensures |r| == |ring| && forall i :: 0 <= i < |ring| ==> r[i] == Point(ring[i].x + d, ring[i].y)
  {
    seq(|ring|, i requires 0 <= i < |ring| => Point(ring[i].x + d, ring[i].y))
  }

  function Rise(d: real, a: Point, b: Point): real {
    d * b.y - d * a.y
  }

  lemma RiseAdds(d: real, a: Point, b: Point, c: Point)
    ensures Rise(d, a, b) + Rise(d, b, c) == Rise(d, a, c)
  {}

  lemma ShiftedCross(a: Point, b: Point, d: real)
    ensures CrossProduct(Point(a.x + d, a.y), Point(b.x + d, b.y)) == CrossProduct(a, b) + Rise(d, a, b)
  {}

  /** Shifting adds d times the rise from first to last point, edge by edge. */
  lemma {:induction false} ShoelaceShifted(pts: seq<Point>, d: real)
    requires pts != []
    ensures Shoelace(ShiftedEast(pts, d)) == Shoelace(pts) + Rise(d, pts[0], pts[|pts| - 1])
  {
    var n := |pts| - 1;
    if n >= 1 {
      ShoelaceShifted(pts[..n], d);
      assert ShiftedEast(pts, d)[..n] == ShiftedEast(pts[..n], d);
      ShiftedCross(pts[n - 1], pts[n], d);
      RiseAdds(d, pts[0], pts[n - 1], pts[n]);
    }
  }

  lemma ShiftThenScale(p: Point, d: real, kx: real, ky: real)
    ensures ScaledPoint(Point(p.x + d, p.y), kx, ky) == Point(ScaledPoint(p, kx, ky).x + d * kx, ScaledPoint(p, kx, ky).y)
  {}

  lemma ScaledShifted(ring: Ring, d: real, kx: real, ky: real)
    ensures Scaled(ShiftedEast(ring, d), kx, ky) == ShiftedEast(Scaled(ring, kx, ky), d * kx)
  {
    forall i | 0 <= i < |ring|
      ensures Scaled(ShiftedEast(ring, d), kx, ky)[i] == ShiftedEast(Scaled(ring, kx, ky), d * kx)[i]
    {
      ShiftThenScale(ring[i], d, kx, ky);
    }
  }

  lemma ClosedShift(pts: seq<Point>, d: real)
    requires ValidRing(pts)
    ensures Shoelace(ShiftedEast(pts, d)) == Shoelace(pts)
  {
    ShoelaceShifted(pts, d);
  }

  /** A closed ring has the same area wherever it lies along its parallel. */
  lemma AreaShifted(metersAt: real -> real, ring: Ring, d: real)
    requires ValidRing(ring)
    ensures RingArea(metersAt, ShiftedEast(ring, d)) == RingArea(metersAt, ring)
  {
    assert Ys(ShiftedEast(ring, d)) == Ys(ring);
    var kx := metersAt(Mean(Ys(ring)));
    ScaledShifted(ring, d, kx, METERS_PER_DEGREE);
    ClosedShift(Scaled(ring, kx, METERS_PER_DEGREE), d * kx);
  }

  // ---- Rectangles, for which both answers are known ----

  function Rectangle(b: Box): Ring {
    [Point(b.minX, b.minY), Point(b.maxX, b.minY), Point(b.maxX, b.maxY), Point(b.minX, b.maxY), Point(b.minX, b.minY)]
  }

  /** For a rectangle the formula is width times height. */
  lemma RectangleShoelace(b: Box)
    ensures Shoelace(Rectangle(b)) == 2.0 * ((b.maxX - b.minX) * (b.maxY - b.minY))
  {
    var r := Rectangle(b);
    assert r[..4][..3] == r[..3] && r[..3][..2] == r[..2] && |r[..2][..1]| == 1;
    assert Shoelace(r[..2]) == CrossProduct(r[0], r[1]);
    assert Shoelace(r[..3]) == Shoelace(r[..2]) + CrossProduct(r[1], r[2]);
    assert Shoelace(r[..4]) == Shoelace(r[..3]) + CrossProduct(r[2], r[3]);
  }

  lemma FiveSum(a: real, b: real, c: real, d: real, e: real)
    ensures Sum([a, b, c, d, e]) == a + b + c + d + e
  {
    var vs := [a, b, c, d, e];
    assert vs[..4][..3] == vs[..3] && vs[..3][..2] == vs[..2] && vs[..2][..1] == vs[..1] && vs[..1][..0] == [];
    assert Sum(vs[..1]) == a;
    assert Sum(vs[..2]) == a + b;
    assert Sum(vs[..3]) == a + b + c;
    assert Sum(vs[..4]) == a + b + c + d;
  }

  /** The area is that of the box, whichever way it is turned. */
  predicate BoxArea(box: Box, area: real) {
    var c := 2.0 * ((box.maxX - box.minX) * (box.maxY - box.minY));
    2.0 * area == if c < 0.0 then -c else c
  }

  lemma ScaledSides(b: Box, k: real, box: Box, area: real)
    requires b.minX <= b.maxX && b.minY <= b.maxY && BoxArea(box, area)
    requires box == Box(b.minX * k, b.minY * 111320.0, b.maxX * k, b.maxY * 111320.0)
    ensures area == (if k < 0.0 then -k else k) * (b.maxX - b.minX) * 111320.0 * (b.maxY - b.minY)
  {
    var w, h := b.maxX - b.minX, b.maxY - b.minY;
    assert box.maxX - box.minX == w * k;
    assert box.maxY - box.minY == h * 111320.0;
    SameProduct(box.maxX - box.minX, w * k, box.maxY - box.minY, h * 111320.0);
    SidesProduct(w, h, k, area);
  }

  lemma SameProduct(a: real, b: real, c: real, d: real)
    requires a == b && c == d
    ensures a * c == b * d
  {}

  lemma SidesProduct(w: real, h: real, k: real, area: real)
    requires w >= 0.0 && h >= 0.0
    requires var c := 2.0 * ((w * k) * (h * 111320.0)); 2.0 * area == if c < 0.0 then -c else c
    ensures area == (if k < 0.0 then -k else k) * w * 111320.0 * h
  {
    var a := w * h;
    assert a >= 0.0;
    assert (w * k) * (111320.0 * h) == 111320.0 * (k * a);
    assert k >= 0.0 ==> k * a >= 0.0;
    assert k <= 0.0 ==> k * a <= 0.0;
    assert k * w * 111320.0 * h == 111320.0 * (k * a);
    assert (-k) * w * 111320.0 * h == -(111320.0 * (k * a));
  }

  lemma BoxInMetres(b: Box, k: real) returns (box: Box)
    ensures box == Box(b.minX * k, b.minY * 111320.0, b.maxX * k, b.maxY * 111320.0)
    ensures InMetres(Rectangle(box), Rectangle(b), k)
  {
    box := Box(b.minX * k, b.minY * 111320.0, b.maxX * k, b.maxY * 111320.0);
  }

  lemma RectangleHalf(metersAt: real -> real, b: Box, m: real, box: Box)
    requires m == (3.0 * b.minY + 2.0 * b.maxY) / 5.0 && InMetres(Rectangle(box), Rectangle(b), metersAt(m))
    ensures BoxArea(box, RingArea(metersAt, Rectangle(b)))
  {
    assert Ys(Rectangle(b)) == [b.minY, b.minY, b.maxY, b.maxY, b.minY];
    FiveSum(b.minY, b.minY, b.maxY, b.maxY, b.minY);
    MeanIs(Ys(Rectangle(b)), m);
    OneInMetres(Rectangle(box), Rectangle(b), metersAt(m));
    RectangleShoelace(box);
    HalfOf(RingArea(metersAt, Rectangle(b)), Shoelace(Rectangle(box)));
  }

  /** A rectangle's area is its width times its height in metres, with k metres to a degree of longitude at the
      mean latitude of its five positions. */
  lemma RectangleArea(metersAt: real -> real, b: Box, m: real, k: real)
    requires b.minX <= b.maxX && b.minY <= b.maxY
    requires m == (3.0 * b.minY + 2.0 * b.maxY) / 5.0 && k == metersAt(m)
    ensures RingArea(metersAt, Rectangle(b)) == (if k < 0.0 then -k else k) * (b.maxX - b.minX) * 111320.0 * (b.maxY - b.minY)
  {
    var box := BoxInMetres(b, k);
    RectangleHalf(metersAt, b, m, box);
    ScaledSides(b, k, box, RingArea(metersAt, Rectangle(b)));
  }

  lemma SideCrosses(q: Point, x: real, low: real, high: real)
    requires low < high
    ensures Crosses(q, Point(x, high), Point(x, low)) <==> low <= q.y < high && q.x < x
    ensures Crosses(q, Point(x, low), Point(x, high)) <==> low <= q.y < high && q.x < x
  {
    var a, b := Point(x, high), Point(x, low);
    if Straddles(q, a, b) { var t := MeetsAlong(q, a, b); }
    CrossesSymmetric(q, a, b);
  }

  /** Ray casting on a rectangle decides exactly the half-open box. */
  lemma RectangleInside(q: Point, b: Box)
    requires b.minX < b.maxX && b.minY < b.maxY
    ensures Inside(q, Rectangle(b)) <==> WithinHalfOpen(q, b)
  {
    var r := Rectangle(b);
    SideCrosses(q, b.maxX, b.minY, b.maxY);
    SideCrosses(q, b.minX, b.minY, b.maxY);
    assert !EdgeCrosses(q, r, 0) && !EdgeCrosses(q, r, 1) && !EdgeCrosses(q, r, 3);
    assert OddCrossings(q, r, 1) == false;
    assert OddCrossings(q, r, 2) == false;
    assert OddCrossings(q, r, 3) == EdgeCrosses(q, r, 2);
    assert OddCrossings(q, r, 4) == EdgeCrosses(q, r, 2);
  }

  // ---- Centroids ----

  /** The vertex average, the closing position not counted. */
  function RingCentroid(ring: Ring): Point
    requires ValidRing(ring)
  {
    var open := ring[..|ring| - 1];
    Point(Mean(Xs(open)), Mean(Ys(open)))
  }

  lemma RingCentroidWithin(ring: Ring, b: Box)
    requires ValidRing(ring) && Covers(b, ring)
    ensures Within(RingCentroid(ring), b)
  {
    var open := ring[..|ring| - 1];
    forall i | 0 <= i < |open| ensures Within(open[i], b) { assert Within(ring[i], b); }
    AverageWithin(open, b);
  }

  /** A geometry, by its exterior rings. */
  predicate ValidGeometry(rings: seq<Ring>) {
    rings != [] && forall ring <- rings :: ValidRing(ring)
  }

  function Areas(metersAt: real -> real, rings: seq<Ring>): (r: seq<real>)
    ensures |r| == |rings| && NonNegative(r) && forall i :: 0 <= i < |rings| ==> r[i] == RingArea(metersAt, rings[i])
  {
    seq(|rings|, i requires 0 <= i < |rings| => RingArea(metersAt, rings[i]))
  }

  function Centroids(rings: seq<Ring>): (r: seq<Point>)
    requires ValidGeometry(rings)
    ensures |r| == |rings| && forall i :: 0 <= i < |rings| ==> r[i] == RingCentroid(rings[i])
  {
    seq(|rings|, i requires 0 <= i < |rings| => RingCentroid(rings[i]))
  }

  /** Area-weighted over the rings, or the plain average when there is no area. */
  function GeometryCentroid(metersAt: real -> real, rings: seq<Ring>): Point
    requires ValidGeometry(rings)
  {
    var areas, centers := Areas(metersAt, rings), Centroids(rings);
    var total := Sum(areas);
    if total > 0.0
    then Point(Dot(areas, Xs(centers)) / total, Dot(areas, Ys(centers)) / total)
    else Point(Mean(Xs(centers)), Mean(Ys(centers)))
  }

  // ---- Where centroids are ----

  /** The weighted distances from c, with their signs. */
  function Moment(ws: seq<real>, vs: seq<real>, c: real): real
    requires |ws| == |vs|
  {
    if ws == [] then 0.0
    else
      var n := |ws| - 1;
      Moment(ws[..n], vs[..n], c) + ws[n] * (vs[n] - c)
  }

  lemma {:induction false} MomentIs(ws: seq<real>, vs: seq<real>, c: real)
    requires |ws| == |vs|
    ensures Moment(ws, vs, c) == Dot(ws, vs) - c * Sum(ws)
  {
    if ws != [] {
      var n := |ws| - 1;
      MomentIs(ws[..n], vs[..n], c);
      Distribute(c, Sum(ws[..n]), ws[n]);
      assert ws[n] * (vs[n] - c) == ws[n] * vs[n] - c * ws[n];
    }
  }

  lemma AverageBalances(ws: seq<real>, vs: seq<real>)
    requires |ws| == |vs| && Sum(ws) > 0.0
    ensures Moment(ws, vs, Dot(ws, vs) / Sum(ws)) == 0.0
  {
    MomentIs(ws, vs, Dot(ws, vs) / Sum(ws));
  }

  lemma MeanBalances(vs: seq<real>)
    requires vs != []
    ensures Moment(Ones(|vs|), vs, Mean(vs)) == 0.0
  {
    DotOnes(vs);
    AverageBalances(Ones(|vs|), vs);
  }

  /** The distances of a ring's vertices from its centroid cancel out, each vertex counted once. */
  lemma RingCentroidBalances(ring: Ring)
    requires ValidRing(ring)
    ensures var c, open := RingCentroid(ring), ring[..|ring| - 1];
      Moment(Ones(|open|), Xs(open), c.x) == 0.0 && Moment(Ones(|open|), Ys(open), c.y) == 0.0
  {
    var open := ring[..|ring| - 1];
    MeanBalances(Xs(open));
    MeanBalances(Ys(open));
  }

  /** The rings balance about the geometry's centroid, each with its area for its weight, or all alike if there
      is no area. */
  lemma CentroidBalances(metersAt: real -> real, rings: seq<Ring>, ws: seq<real>)
    requires ValidGeometry(rings) && |ws| == |rings|
    requires forall i :: 0 <= i < |rings| ==> ws[i] == RingArea(metersAt, rings[i])
    ensures var c, centers := GeometryCentroid(metersAt, rings), Centroids(rings);
      var weights := if Sum(ws) > 0.0 then ws else Ones(|rings|);
      Moment(weights, Xs(centers), c.x) == 0.0 && Moment(weights, Ys(centers), c.y) == 0.0
  {
    var centers := Centroids(rings);
    assert Areas(metersAt, rings) == ws;
    if Sum(ws) > 0.0 {
      AverageBalances(ws, Xs(centers));
      AverageBalances(ws, Ys(centers));
    } else {
      MeanBalances(Xs(centers));
      MeanBalances(Ys(centers));
    }
  }

  function Lower(a: real, b: real): real {
    if b < a then b else a
  }

  function Upper(a: real, b: real): real {
    if b > a then b else a
  }

  function UnionBox(a: Box, b: Box): Box {
    Box(Lower(a.minX, b.minX), Lower(a.minY, b.minY), Upper(a.maxX, b.maxX), Upper(a.maxY, b.maxY))
  }

  /** The union of the rings' boxes. */
  function GeometryBox(rings: seq<Ring>): Box
    requires ValidGeometry(rings)
  {
    assert rings[|rings| - 1] in rings;
    var last := RingBox(rings[|rings| - 1]);
    if |rings| == 1 then last
    else UnionBox(GeometryBox(rings[..|rings| - 1]), last)
  }

  lemma {:induction false} GeometryBoxCovers(rings: seq<Ring>, i: nat)
    requires ValidGeometry(rings) && i < |rings|
    ensures Covers(GeometryBox(rings), rings[i])
  {
    var n := |rings| - 1;
    LastRing(rings);
    if n > 0 {
      if i < n {
        GeometryBoxCovers(rings[..n], i);
        assert rings[..n][i] == rings[i];
      }
      WidenedBoth(rings, GeometryBox(rings[..n]), RingBox(rings[n]), i);
    }
  }

  predicate HasX(rings: seq<Ring>, x: real) {
    exists i :: 0 <= i < |rings| && x in Xs(rings[i])
  }

  predicate HasY(rings: seq<Ring>, y: real) {
    exists i :: 0 <= i < |rings| && y in Ys(rings[i])
  }

  lemma {:induction false} GeometryBoxTight(rings: seq<Ring>)
    requires ValidGeometry(rings)
    ensures var b := GeometryBox(rings);
      HasX(rings, b.minX) && HasX(rings, b.maxX) && HasY(rings, b.minY) && HasY(rings, b.maxY)
  {
    var n := |rings| - 1;
    LastRing(rings);
    if n > 0 {
      GeometryBoxTight(rings[..n]);
      FrontHas(rings, GeometryBox(rings[..n]));
    }
  }

  lemma FrontHas(rings: seq<Ring>, b: Box)
    requires rings != []
    requires var front := rings[..|rings| - 1];
      HasX(front, b.minX) && HasX(front, b.maxX) && HasY(front, b.minY) && HasY(front, b.maxY)
    ensures HasX(rings, b.minX) && HasX(rings, b.maxX) && HasY(rings, b.minY) && HasY(rings, b.maxY)
  {
    var front := rings[..|rings| - 1];
    forall i | 0 <= i < |front| ensures front[i] == rings[i] {}
  }

  lemma LastRing(rings: seq<Ring>)
    requires ValidGeometry(rings)
    ensures var n := |rings| - 1;
      && rings[n] != [] && Covers(RingBox(rings[n]), rings[n])
      && if n == 0 then GeometryBox(rings) == RingBox(rings[n])
         else ValidGeometry(rings[..n]) && GeometryBox(rings) == UnionBox(GeometryBox(rings[..n]), RingBox(rings[n]))
  {
    assert rings[|rings| - 1] in rings;
  }

  lemma WidenedBoth(rings: seq<Ring>, front: Box, last: Box, i: nat)
    requires i < |rings| && if i < |rings| - 1 then Covers(front, rings[i]) else Covers(last, rings[i])
    ensures Covers(UnionBox(front, last), rings[i])
  {
    if i < |rings| - 1 { Widened(front, last, rings[i]); }
    else { Widened(last, front, rings[i]); }
  }

  lemma Widened(a: Box, b: Box, ring: Ring)
    requires Covers(a, ring)
    ensures Covers(UnionBox(a, b), ring) && Covers(UnionBox(b, a), ring)
  {
    forall i | 0 <= i < |ring| ensures Within(ring[i], UnionBox(a, b)) && Within(ring[i], UnionBox(b, a)) {
      assert Within(ring[i], a);
    }
  }

  lemma WeightedWithin(ws: seq<real>, pts: seq<Point>, b: Box)
    requires |ws| == |pts| && NonNegative(ws) && Sum(ws) > 0.0 && Covers(b, pts)
    ensures Within(Point(Dot(ws, Xs(pts)) / Sum(ws), Dot(ws, Ys(pts)) / Sum(ws)), b)
  {
    CoordinatesBetween(pts, b);
    WeightedAverage(ws, Xs(pts), b.minX, b.maxX);
    WeightedAverage(ws, Ys(pts), b.minY, b.maxY);
  }

  lemma CoordinatesBetween(pts: seq<Point>, b: Box)
    requires Covers(b, pts)
    ensures Between(Xs(pts), b.minX, b.maxX) && Between(Ys(pts), b.minY, b.maxY)
  {
    forall i | 0 <= i < |pts| ensures b.minX <= Xs(pts)[i] <= b.maxX && b.minY <= Ys(pts)[i] <= b.maxY {
      assert Within(pts[i], b);
    }
  }

  lemma AverageWithin(pts: seq<Point>, b: Box)
    requires pts != [] && Covers(b, pts)
    ensures Within(Point(Mean(Xs(pts)), Mean(Ys(pts))), b)
  {
    CoordinatesBetween(pts, b);
    PlainAverage(Xs(pts), b.minX, b.maxX);
    PlainAverage(Ys(pts), b.minY, b.maxY);
  }

  /** Before rounding, the centroid of any geometry lies in its bounding box. */
  lemma {:induction false} CentroidWithinBox(metersAt: real -> real, rings: seq<Ring>)
    requires ValidGeometry(rings)
    ensures Within(GeometryCentroid(metersAt, rings), GeometryBox(rings))
  {
    var b := GeometryBox(rings);
    var areas, centers := Areas(metersAt, rings), Centroids(rings);
    forall i | 0 <= i < |centers| ensures Within(centers[i], b) {
      assert rings[i] in rings;
      GeometryBoxCovers(rings, i);
      RingCentroidWithin(rings[i], b);
    }
    if Sum(areas) > 0.0 {
      WeightedWithin(areas, centers, b);
    } else {
      AverageWithin(centers, b);
    }
  }

  predicate InGeometry(q: Point, rings: seq<Ring>) {
    exists ring <- rings :: Inside(q, ring)
  }

  lemma InGeometryIsWithin(q: Point, rings: seq<Ring>)
    requires ValidGeometry(rings) && InGeometry(q, rings)
    ensures WithinHalfOpen(q, GeometryBox(rings))
  {
    var i :| 0 <= i < |rings| && Inside(q, rings[i]);
    GeometryBoxCovers(rings, i);
    InsideIsWithin(q, rings[i], GeometryBox(rings));
  }
}
