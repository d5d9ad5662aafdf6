/** Sampling campaigns: drawing the points and accepting them only inside the area of interest. */
module Campaigns {
  import opened Results
  import opened Geometry
  import opened Sampling

  const MAX_ATTEMPTS_PER_POINT := 200

  /** What a random source returns as its k-th reading, when asked for a number between two bounds. */
  type Stream = (nat, real, real) -> real

  /** A random source: an arbitrary number between the bounds at each reading. */
  class Random {
    const stream: Stream
    var next: nat

    ghost predicate Valid() {
      forall k: nat, low: real, high: real :: low <= high ==> low <= stream(k, low, high) <= high
    }

    constructor (stream: Stream)
      requires forall k: nat, low: real, high: real :: low <= high ==> low <= stream(k, low, high) <= high
      ensures Valid() && this.stream == stream && next == 0
    {
      this.stream := stream;
      next := 0;
    }

    method Uniform(low: real, high: real) returns (r: real)
      requires Valid() && low <= high
      modifies this
      ensures low <= r <= high && r == stream(old(next), low, high)
      ensures next == old(next) + 1
    {
      r := stream(next, low, high);
      next := next + 1;
    }
  }

  function Center(b: Box): Point {
    Point((b.minX + b.maxX) / 2.0, (b.minY + b.maxY) / 2.0)
  }

  predicate Ordered(b: Box) {
    b.minX <= b.maxX && b.minY <= b.maxY
  }

  lemma GeometryBoxOrdered(rings: seq<Ring>)
    requires ValidGeometry(rings)
    ensures Ordered(GeometryBox(rings))
  {
    GeometryBoxCovers(rings, 0);
    assert rings[0] in rings;
    assert Within(rings[0][0], GeometryBox(rings));
  }

  /** The area, as the points that its rings hold. */
  ghost predicate IsArea(area: Point -> bool, rings: seq<Ring>) {
    forall q {:trigger InGeometry(q, rings)} :: area(q) <==> InGeometry(q, rings)
  }

  method PointInGeometry(q: Point, rings: seq<Ring>, ghost area: Point -> bool) returns (inside: bool)
    requires IsArea(area, rings)
    ensures inside == area(q)
  {
    for i := 0 to |rings|
      invariant forall k :: 0 <= k < i ==> !Inside(q, rings[k])
    {
      var hit := PointInRing(q, rings[i]);
      if hit {
        assert rings[i] in rings;
        assert InGeometry(q, rings);
        return true;
      }
    }
    assert !InGeometry(q, rings);
    return false;
  }

  /** The point drawn with two readings: longitude, then latitude, each between the sides of the box. */
  function Draw(stream: Stream, b: Box, from: nat): Point {
    Point(stream(from, b.minX, b.maxX), stream(from + 1, b.minY, b.maxY))
  }

  /** All the points that may be drawn for one, from a reading on. */
  function Draws(stream: Stream, b: Box, from: nat): (r: seq<Point>)
    ensures |r| == 200 && forall j :: 0 <= j < 200 ==> r[j] == Draw(stream, b, from + 2 * j)
  {
    seq(200, j requires 0 <= j < 200 => Draw(stream, b, from + 2 * j))
  }

  /** How many points come before the first one inside. */
  function Misses(area: Point -> bool, points: seq<Point>): (n: nat)
    ensures n <= |points| && (n < |points| ==> area(points[n]))
    ensures forall j :: 0 <= j < n ==> !area(points[j])
  {
    if points == [] || area(points[0]) then 0 else 1 + Misses(area, points[1..])
  }

  /** The point drawn from a reading on, and the reading that comes after it. */
  function RandomFrom(stream: Stream, b: Box, area: Point -> bool, from: nat): (Point, nat) {
    var draws := Draws(stream, b, from);
    var n := Misses(area, draws);
    if n < 200 then (draws[n], from + 2 * n + 2) else (Center(b), from + 400)
  }

  /** It is the first point drawn to lie inside the area, of at most 200, or the middle of the box if all miss. */
  lemma RandomIsFirst(stream: Stream, b: Box, area: Point -> bool, from: nat) returns (n: nat)
    ensures var (q, to) := RandomFrom(stream, b, area, from);
      && n <= 200
      && (forall j :: 0 <= j < n ==>
            !area(Point(stream(from + 2 * j, b.minX, b.maxX), stream(from + 2 * j + 1, b.minY, b.maxY))))
      && if n < 200 then
           area(q) && to == from + 2 * n + 2 && q == Point(stream(to - 2, b.minX, b.maxX), stream(to - 1, b.minY, b.maxY))
         else
           to == from + 400 && q == Point((b.minX + b.maxX) / 2.0, (b.minY + b.maxY) / 2.0)
  {
    n := Misses(area, Draws(stream, b, from));
    forall j | 0 <= j < n
      ensures !area(Point(stream(from + 2 * j, b.minX, b.maxX), stream(from + 2 * j + 1, b.minY, b.maxY)))
    {
      assert !area(Draws(stream, b, from)[j]);
    }
  }

  /** The first n points drawn are all outside. */
  predicate AllMiss(area: Point -> bool, draws: seq<Point>, n: nat) {
    n <= |draws| && forall j :: 0 <= j < n ==> !area(draws[j])
  }

  lemma OneMoreMiss(area: Point -> bool, draws: seq<Point>, n: nat)
    requires AllMiss(area, draws, n) && n < |draws| && !area(draws[n])
    ensures AllMiss(area, draws, n + 1)
  {}

  /** Two readings make the n-th draw. */
  lemma DrawnAs(stream: Stream, b: Box, from: nat, n: nat, next: nat, x: real, y: real)
    requires n < 200 && next == from + 2 * n + 2
    requires x == stream(next - 2, b.minX, b.maxX) && y == stream(next - 1, b.minY, b.maxY)
    ensures Draws(stream, b, from)[n] == Point(x, y)
  {}

  lemma FoundAt(stream: Stream, b: Box, area: Point -> bool, from: nat, n: nat, q: Point, to: nat)
    requires AllMiss(area, Draws(stream, b, from), n)
    requires n < 200 ==> q == Draws(stream, b, from)[n] && area(q) && to == from + 2 * n + 2
    requires n == 200 ==> q == Center(b) && to == from + 400
    ensures RandomFrom(stream, b, area, from) == (q, to)
  {
    var m := Misses(area, Draws(stream, b, from));
    assert m == n;
  }

  /** Draws points of the bounding box until one is inside; after the last attempt, the box's centre. */
  method RandomPoint(rings: seq<Ring>, rng: Random, ghost area: Point -> bool) returns (q: Point)
    requires ValidGeometry(rings) && rng.Valid() && IsArea(area, rings)
    modifies rng
    ensures RandomFrom(rng.stream, GeometryBox(rings), area, old(rng.next)) == (q, rng.next)
    ensures Within(q, GeometryBox(rings))
    ensures area(q) || q == Center(GeometryBox(rings))
  {
    var box := GeometryBox(rings);
    ghost var from, draws := rng.next, Draws(rng.stream, box, rng.next);
    GeometryBoxOrdered(rings);
    for i := 0 to MAX_ATTEMPTS_PER_POINT
      invariant rng.next == from + 2 * i && AllMiss(area, draws, i)
    {
      var x := rng.Uniform(box.minX, box.maxX);
      var y := rng.Uniform(box.minY, box.maxY);
      q := Point(x, y);
      DrawnAs(rng.stream, box, from, i, rng.next, x, y);
      var inside := PointInGeometry(q, rings, area);
      if inside {
        FoundAt(rng.stream, box, area, from, i, q, rng.next);
        return;
      }
      OneMoreMiss(area, draws, i);
    }
    q := Center(box);
    FoundAt(rng.stream, box, area, from, 200, q, rng.next);
  }

  datatype SamplePoint = SamplePoint(at: Point, stratum: Option<string>)

  predicate DrawnFrom(points: seq<SamplePoint>, rings: seq<Ring>)
    requires ValidGeometry(rings)
  {
    forall i :: 0 <= i < |points| ==> Within(points[i].at, GeometryBox(rings))
  }

  function Copies(n: nat, name: string): (r: seq<Option<string>>)
    ensures |r| == n && forall i :: 0 <= i < n ==> r[i] == Some(name)
  {
    seq(n, _ => Some(name))
  }

  /** The labels of the points an allocation asks for, in order. */
  function Expanded(d: Allocation): (r: seq<Option<string>>)
    ensures |r| == Points(d)
  {
    if d == [] then []
    else
      var last := d[|d| - 1];
      Expanded(d[..|d| - 1]) + Copies(if last.count > 0 then last.count else 0, last.name)
  }

  /** The labels of an entry come after those of the entries before it, as many as its count says. */
  lemma {:induction false} ExpandedAt(d: Allocation, i: nat, j: nat)
    requires i < |d| && j < d[i].count
    ensures Points(d[..i]) + j < |Expanded(d)| && Expanded(d)[Points(d[..i]) + j] == Some(d[i].name)
  {
    var n := |d| - 1;
    if i < n {
      assert d[..n][..i] == d[..i];
      ExpandedAt(d[..n], i, j);
    }
  }

  function StrataOf(points: seq<SamplePoint>): (r: seq<Option<string>>)
    ensures |r| == |points| && forall i :: 0 <= i < |points| ==> r[i] == points[i].stratum
  {
    seq(|points|, i requires 0 <= i < |points| => points[i].stratum)
  }

  /** One point after another for the labels, from a reading on, and the reading that comes after them. */
  function Labelled(stream: Stream, b: Box, area: Point -> bool, from: nat, labels: seq<Option<string>>)
    : (seq<SamplePoint>, nat)
  {
    if labels == [] then ([], from)
    else
      var last := |labels| - 1;
      var (points, mid) := Labelled(stream, b, area, from, labels[..last]);
      var (q, to) := RandomFrom(stream, b, area, mid);
      (points + [SamplePoint(q, labels[last])], to)
  }

  lemma OneMoreLabel(stream: Stream, b: Box, area: Point -> bool, from: nat, labels: seq<Option<string>>, tag: Option<string>)
    ensures var (points, mid) := Labelled(stream, b, area, from, labels);
      var (q, to) := RandomFrom(stream, b, area, mid);
      Labelled(stream, b, area, from, labels + [tag]) == (points + [SamplePoint(q, tag)], to)
  {
    assert (labels + [tag])[..|labels|] == labels;
  }

  lemma StrataAppend(points: seq<SamplePoint>, p: SamplePoint)
    ensures StrataOf(points + [p]) == StrataOf(points) + [p.stratum]
  {}

  /** The labels come out as asked. */
  lemma {:induction false} LabelledLabels(stream: Stream, b: Box, area: Point -> bool, from: nat, labels: seq<Option<string>>)
    ensures StrataOf(Labelled(stream, b, area, from, labels).0) == labels
  {
    if labels != [] {
      var last := |labels| - 1;
      var (points, mid) := Labelled(stream, b, area, from, labels[..last]);
      LabelledLabels(stream, b, area, from, labels[..last]);
      StrataAppend(points, SamplePoint(RandomFrom(stream, b, area, mid).0, labels[last]));
    }
  }

  lemma LabelledCount(stream: Stream, b: Box, area: Point -> bool, from: nat, labels: seq<Option<string>>)
    ensures |Labelled(stream, b, area, from, labels).0| == |labels|
  {
    LabelledLabels(stream, b, area, from, labels);
    assert |StrataOf(Labelled(stream, b, area, from, labels).0)| == |labels|;
  }

  function Unlabelled(count: nat): (r: seq<Option<string>>)
    ensures |r| == count && forall i :: 0 <= i < count ==> r[i] == None
  {
    seq(count, _ => None)
  }

  lemma DrawnMore(points: seq<SamplePoint>, p: SamplePoint, rings: seq<Ring>)
    requires ValidGeometry(rings) && DrawnFrom(points, rings) && Within(p.at, GeometryBox(rings))
    ensures DrawnFrom(points + [p], rings)
  {}

  method GenerateSimple(rings: seq<Ring>, count: nat, rng: Random, ghost area: Point -> bool)
    returns (points: seq<SamplePoint>)
    requires ValidGeometry(rings) && rng.Valid() && IsArea(area, rings)
    modifies rng
    ensures |points| == count && DrawnFrom(points, rings)
    ensures (points, rng.next) == Labelled(rng.stream, GeometryBox(rings), area, old(rng.next), Unlabelled(count))
  {
    points := [];
    for i := 0 to count
      invariant |points| == i && DrawnFrom(points, rings)
      invariant (points, rng.next) == Labelled(rng.stream, GeometryBox(rings), area, old(rng.next), Unlabelled(i))
    {
      var q := RandomPoint(rings, rng, area);
      OneMoreLabel(rng.stream, GeometryBox(rings), area, old(rng.next), Unlabelled(i), None);
      assert Unlabelled(i + 1) == Unlabelled(i) + [None];
      DrawnMore(points, SamplePoint(q, None), rings);
      points := points + [SamplePoint(q, None)];
    }
  }

  lemma OneMoreCopy(labels: seq<Option<string>>, name: string, n: nat)
    ensures labels + Copies(n, name) + [Some(name)] == labels + Copies(n + 1, name)
  {}

  lemma OneMoreBatch(d: Allocation, i: nat)
    requires i < |d|
    ensures Expanded(d[..i + 1]) == Expanded(d[..i]) + Copies(if d[i].count > 0 then d[i].count else 0, d[i].name)
  {
    assert d[..i + 1][..i] == d[..i];
  }

  /** One batch of points per entry of the allocation, labelled with it. */
  method GenerateStratified(rings: seq<Ring>, strata: seq<Stratum>, total: nat, how: AllocationMethod, rng: Random,
                            ghost area: Point -> bool)
    returns (points: seq<SamplePoint>)
    requires ValidGeometry(rings) && rng.Valid() && IsArea(area, rings)
    modifies rng
    ensures DrawnFrom(points, rings)
    ensures var labels := Expanded(Allocate(strata, total, how));
      (points, rng.next) == Labelled(rng.stream, GeometryBox(rings), area, old(rng.next), labels)
  {
    var allocation := Allocate(strata, total, how);
    ghost var b := GeometryBox(rings);
    points := [];
    for i := 0 to |allocation|
      invariant DrawnFrom(points, rings)
      invariant (points, rng.next) == Labelled(rng.stream, b, area, old(rng.next), Expanded(allocation[..i]))
    {
      var share := allocation[i];
      var wanted := if share.count > 0 then share.count else 0;
      ghost var labels := Expanded(allocation[..i]);
      assert labels + Copies(0, share.name) == labels;
      for j := 0 to wanted
        invariant DrawnFrom(points, rings)
        invariant (points, rng.next) == Labelled(rng.stream, b, area, old(rng.next), labels + Copies(j, share.name))
      {
        var q := RandomPoint(rings, rng, area);
        OneMoreLabel(rng.stream, b, area, old(rng.next), labels + Copies(j, share.name), Some(share.name));
        OneMoreCopy(labels, share.name, j);
        DrawnMore(points, SamplePoint(q, Some(share.name)), rings);
        points := points + [SamplePoint(q, Some(share.name))];
      }
      OneMoreBatch(allocation, i);
    }
    assert allocation[..|allocation|] == allocation;
  }

  ghost predicate AllIn(points: seq<SamplePoint>, area: Point -> bool) {
    forall i :: 0 <= i < |points| ==> area(points[i].at)
  }

  predicate AllHeld(points: seq<SamplePoint>, rings: seq<Ring>) {
    forall i :: 0 <= i < |points| ==> InGeometry(points[i].at, rings)
  }

  lemma AllInIsHeld(points: seq<SamplePoint>, rings: seq<Ring>, area: Point -> bool)
    requires IsArea(area, rings)
    ensures AllIn(points, area) <==> AllHeld(points, rings)
  {
    forall i | 0 <= i < |points| ensures area(points[i].at) <==> InGeometry(points[i].at, rings) {}
  }

  method AllPointsInside(points: seq<SamplePoint>, rings: seq<Ring>, ghost area: Point -> bool) returns (inside: bool)
    requires IsArea(area, rings)
    ensures inside <==> AllIn(points, area)
  {
    for i := 0 to |points|
      invariant forall k :: 0 <= k < i ==> area(points[k].at)
    {
      inside := PointInGeometry(points[i].at, rings, area);
      if !inside {
        return;
      }
    }
    return true;
  }

  datatype CampaignStatus = Draft | Generated

  datatype SamplingMethod = StratifiedRandom | SimpleRandom

  datatype CampaignError = AlreadyGenerated | PointOutside

  class SamplingCampaign {
    const how: SamplingMethod
    const sampleSize: nat
    const allocation: AllocationMethod
    const strata: seq<Stratum>
    var status: CampaignStatus
    var points: seq<SamplePoint>

    constructor (how: SamplingMethod, sampleSize: nat, allocation: AllocationMethod, strata: seq<Stratum>)
      ensures status == Draft && points == []
      ensures this.how == how && this.sampleSize == sampleSize && this.allocation == allocation && this.strata == strata
    {
      this.how, this.sampleSize, this.allocation, this.strata := how, sampleSize, allocation, strata;
      status, points := Draft, [];
    }

    /** A generated campaign holds only points inside the area. */
    predicate AllInside(rings: seq<Ring>)
      reads this
    {
      AllHeld(points, rings)
    }

    function Wanted(): nat {
      if how == StratifiedRandom then Points(Allocate(strata, sampleSize, allocation)) else sampleSize
    }

    /** The labels the design asks for, in order. */
    function Labels(): (r: seq<Option<string>>)
      ensures |r| == Wanted()
    {
      if how == StratifiedRandom then Expanded(Allocate(strata, sampleSize, allocation)) else Unlabelled(sampleSize)
    }

    /** One sample of the design is drawn. If every point lies inside the area the campaign holds it and is generated;
        otherwise it stays as it was. A generated campaign draws nothing. */
    method GeneratePoints(rings: seq<Ring>, rng: Random, ghost area: Point -> bool) returns (r: Result<nat, CampaignError>)
      requires ValidGeometry(rings) && rng.Valid() && IsArea(area, rings)
      modifies this, rng
      ensures old(status) == Generated ==> r == Err(AlreadyGenerated) && rng.next == old(rng.next)
      ensures r.Err? ==> status == old(status) && points == old(points)
      ensures r.Ok? ==> status == Generated && AllInside(rings) && |points| == r.value == Wanted()
      ensures old(status) == Draft ==>
        var (drawn, to) := Labelled(rng.stream, GeometryBox(rings), area, old(rng.next), Labels());
        && rng.next == to
        && r == (if AllIn(drawn, area) then Ok(|drawn|) else Err(PointOutside))
        && (r.Ok? ==> points == drawn)
    {
      if status == Generated {
        return Err(AlreadyGenerated);
      }
      var drawn;
      if how == StratifiedRandom {
        drawn := GenerateStratified(rings, strata, sampleSize, allocation, rng, area);
      } else {
        drawn := GenerateSimple(rings, sampleSize, rng, area);
      }
      AllInIsHeld(drawn, rings, area);
      LabelledCount(rng.stream, GeometryBox(rings), area, old(rng.next), Labels());
      var inside := AllPointsInside(drawn, rings, area);
      if !inside {
        return Err(PointOutside);
      }
      points := drawn;
      status := Generated;
      return Ok(|drawn|);
    }
  }

  /** So every point of a generated campaign lies in its area's bounding box, off the upper edges. */
  lemma {:induction false} GeneratedWithinBox(campaign: SamplingCampaign, rings: seq<Ring>, i: nat)
    requires ValidGeometry(rings) && campaign.AllInside(rings) && i < |campaign.points|
    ensures WithinHalfOpen(campaign.points[i].at, GeometryBox(rings))
  {
    InGeometryIsWithin(campaign.points[i].at, rings);
  }
}
