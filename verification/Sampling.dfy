/** Stratified allocation, and rejection sampling inside an area of interest. */
module Sampling {
  import opened Results

  datatype Stratum = Stratum(name: string, proportion: real) {
    predicate Valid() {
      0.0 < proportion <= 1.0
    }
  }

  datatype AllocationMethod = Proportional | Equal

  /** Rounding to the nearest integer, ties to even. */
  function Round(x: real): (r: int)
    ensures -0.5 <= r as real - x <= 0.5
    ensures r as real - x == 0.5 || x - r as real == 0.5 ==> r % 2 == 0
  {
    var low := x.Floor;
    var rest := x - low as real;
    if rest < 0.5 then low
    else if rest > 0.5 then low + 1
    else if low % 2 == 0 then low
    else low + 1
  }

  /** One entry of an allocation, in insertion order. */
  datatype Share = Share(name: string, count: int)

  type Allocation = seq<Share>

  // ---- The allocation as a dictionary keyed by label ----

  function IndexOf(d: Allocation, name: string): (k: Option<nat>)
    ensures k.Some? ==> k.value < |d| && d[k.value].name == name
    ensures k.None? ==> forall i :: 0 <= i < |d| ==> d[i].name != name
  {
    if d == [] then None
    else if d[|d| - 1].name == name then Some(|d| - 1)
    else IndexOf(d[..|d| - 1], name)
  }

  /** A known label keeps its place and takes the new count. */
  function Assign(d: Allocation, name: string, count: int): Allocation {
    match IndexOf(d, name)
    case Some(k) => d[k := Share(name, count)]
    case None => d + [Share(name, count)]
  }

  function Whole(strata: seq<Stratum>): real {
    if strata == [] then 0.0 else Whole(strata[..|strata| - 1]) + strata[|strata| - 1].proportion
  }

  /** What a proportion entitles to before rounding. */
  function Quota(total: nat, part: real, whole: real): real {
    if whole == 0.0 then 0.0 else total as real * (part / whole)
  }

  /** How a stratum is counted before the remainder is assigned. */
  datatype CountRule = Even(share: int) | Rounded(total: nat, whole: real)

  function CountOf(rule: CountRule, s: Stratum): int {
    match rule
    case Even(share) => share
    case Rounded(total, whole) => Round(Quota(total, s.proportion, whole))
  }

  /** The dictionary built from the strata in turn. */
  function Tally(strata: seq<Stratum>, rule: CountRule): (d: Allocation)
    ensures |d| <= |strata| && (strata != [] ==> d != [])
  {
    if strata == [] then []
    else
      var n := |strata| - 1;
      Assign(Tally(strata[..n], rule), strata[n].name, CountOf(rule, strata[n]))
  }

  predicate Named(strata: seq<Stratum>, name: string) {
    strata != [] && (strata[|strata| - 1].name == name || Named(strata[..|strata| - 1], name))
  }

  /** No label occurs again later. */
  predicate DistinctNames(strata: seq<Stratum>) {
    strata == []
    || (DistinctNames(strata[..|strata| - 1]) && !Named(strata[..|strata| - 1], strata[|strata| - 1].name))
  }

  lemma {:induction false} SameNames(d: Allocation, e: Allocation, name: string)
    requires |d| == |e| && forall i :: 0 <= i < |d| ==> d[i].name == e[i].name
    ensures IndexOf(d, name) == IndexOf(e, name)
  {
    if d != [] { SameNames(d[..|d| - 1], e[..|d| - 1], name); }
  }

  lemma {:induction false} TallyNames(strata: seq<Stratum>, rule: CountRule, name: string)
    ensures IndexOf(Tally(strata, rule), name).Some? <==> Named(strata, name)
  {
    if strata != [] {
      var n := |strata| - 1;
      var d := Tally(strata[..n], rule);
      TallyNames(strata[..n], rule, name);
      match IndexOf(d, strata[n].name)
      case Some(k) => SameNames(d, d[k := Share(strata[n].name, CountOf(rule, strata[n]))], name);
      case None => assert (d + [Share(strata[n].name, CountOf(rule, strata[n]))])[..|d|] == d;
    }
  }

  /** One entry per stratum exactly when no label is repeated, and then in the same order. */
  lemma {:induction false} TallyDistinct(strata: seq<Stratum>, rule: CountRule)
    ensures |Tally(strata, rule)| == |strata| <==> DistinctNames(strata)
    ensures DistinctNames(strata) ==> InOrder(Tally(strata, rule), strata, rule)
  {
    if strata != [] {
      var n := |strata| - 1;
      TallyDistinct(strata[..n], rule);
      TallyStep(strata, rule);
      if DistinctNames(strata) { InOrderGrows(Tally(strata[..n], rule), strata, rule); }
    }
  }

  /** No label has two entries. */
  predicate OneEach(d: Allocation) {
    forall i, j :: 0 <= i < j < |d| ==> d[i].name != d[j].name
  }

  predicate OnlyNamed(d: Allocation, strata: seq<Stratum>) {
    forall i :: 0 <= i < |d| ==> Named(strata, d[i].name)
  }

  /** Assigning sets the entry of that label, leaves the others, and adds no second entry. */
  lemma AssignEffect(d: Allocation, name: string, count: int)
    requires OneEach(d)
    ensures var r := Assign(d, name, count);
      && OneEach(r) && Share(name, count) in r
      && (forall e <- d :: e.name != name ==> e in r)
      && (forall i :: 0 <= i < |r| ==> r[i].name == name || (i < |d| && r[i] == d[i]))
  {
    var r := Assign(d, name, count);
    match IndexOf(d, name)
    case Some(k) =>
      assert r[k] == Share(name, count);
      forall i | 0 <= i < |d| && d[i].name != name ensures d[i] in r { assert r[i] == d[i]; }
    case None =>
      assert r[|d|] == Share(name, count);
  }

  lemma NamedLast(strata: seq<Stratum>)
    requires strata != []
    ensures Named(strata, strata[|strata| - 1].name)
    ensures forall name :: Named(strata[..|strata| - 1], name) ==> Named(strata, name)
  {}

  lemma {:induction false} TallyOnce(strata: seq<Stratum>, rule: CountRule)
    ensures OneEach(Tally(strata, rule)) && OnlyNamed(Tally(strata, rule), strata)
  {
    if strata != [] {
      var n := |strata| - 1;
      TallyOnce(strata[..n], rule);
      NamedLast(strata);
      NamesAssigned(Tally(strata[..n], rule), strata, CountOf(rule, strata[n]));
    }
  }

  lemma NamesAssigned(d: Allocation, strata: seq<Stratum>, count: int)
    requires strata != [] && OneEach(d) && OnlyNamed(d, strata[..|strata| - 1])
    ensures var r := Assign(d, strata[|strata| - 1].name, count); OneEach(r) && OnlyNamed(r, strata)
  {
    NamedLast(strata);
    AssignEffect(d, strata[|strata| - 1].name, count);
  }

  lemma AssignSets(d: Allocation, name: string, count: int)
    ensures Share(name, count) in Assign(d, name, count)
  {
    match IndexOf(d, name)
    case Some(k) => assert d[k := Share(name, count)][k] == Share(name, count);
    case None => assert (d + [Share(name, count)])[|d|] == Share(name, count);
  }

  lemma AssignKeeps(d: Allocation, name: string, count: int, e: Share)
    requires e in d && e.name != name
    ensures e in Assign(d, name, count)
  {
    var i :| 0 <= i < |d| && d[i] == e;
    assert Assign(d, name, count)[i] == e;
  }

  /** The entry of a label has the count of its last stratum. */
  lemma {:induction false} TallyHolds(strata: seq<Stratum>, rule: CountRule, j: nat)
    requires j < |strata| && forall l :: j < l < |strata| ==> strata[l].name != strata[j].name
    ensures Share(strata[j].name, CountOf(rule, strata[j])) in Tally(strata, rule)
  {
    var n := |strata| - 1;
    var d := Tally(strata[..n], rule);
    if j < n {
      TallyHolds(strata[..n], rule, j);
      AssignKeeps(d, strata[n].name, CountOf(rule, strata[n]), Share(strata[j].name, CountOf(rule, strata[j])));
    } else {
      AssignSets(d, strata[n].name, CountOf(rule, strata[n]));
    }
  }

  predicate InOrder(d: Allocation, strata: seq<Stratum>, rule: CountRule) {
    |d| == |strata| && forall i :: 0 <= i < |strata| ==> d[i] == Share(strata[i].name, CountOf(rule, strata[i]))
  }

  lemma InOrderGrows(d: Allocation, strata: seq<Stratum>, rule: CountRule)
    requires strata != [] && InOrder(d, strata[..|strata| - 1], rule)
    ensures var last := strata[|strata| - 1]; InOrder(d + [Share(last.name, CountOf(rule, last))], strata, rule)
  {}

  lemma TallyStep(strata: seq<Stratum>, rule: CountRule)
    requires strata != []
    ensures var n := |strata| - 1;
      var d := Tally(strata[..n], rule);
      if Named(strata[..n], strata[n].name) then |Tally(strata, rule)| == |d|
      else Tally(strata, rule) == d + [Share(strata[n].name, CountOf(rule, strata[n]))]
  {
    TallyNames(strata[..|strata| - 1], rule, strata[|strata| - 1].name);
  }

  predicate CountsBetween(d: Allocation, lo: int, hi: int) {
    forall i :: 0 <= i < |d| ==> lo <= d[i].count <= hi
  }

  lemma {:induction false} TallyBetween(strata: seq<Stratum>, rule: CountRule, lo: int, hi: int)
    requires forall j :: 0 <= j < |strata| ==> lo <= CountOf(rule, strata[j]) <= hi
    ensures CountsBetween(Tally(strata, rule), lo, hi)
  {
    if strata != [] { TallyBetween(strata[..|strata| - 1], rule, lo, hi); }
  }

  function Sum(d: Allocation): int {
    if d == [] then 0 else Sum(d[..|d| - 1]) + d[|d| - 1].count
  }

  /** The first entry with the greatest count. */
  function Largest(d: Allocation): (k: nat)
    requires d != []
    ensures k < |d| && forall i :: 0 <= i < |d| ==> d[i].count <= d[k].count
    ensures forall i :: 0 <= i < k ==> d[i].count < d[k].count
  {
    if |d| == 1 then 0
    else
      var k := Largest(d[..|d| - 1]);
      if d[|d| - 1].count > d[k].count then |d| - 1 else k
  }

  // ---- Allocation ----

  /** The counts before the remainder is assigned. */
  function FirstCounts(strata: seq<Stratum>, total: nat, how: AllocationMethod): Allocation
    requires strata != []
  {
    Tally(strata, if how == Equal then Even(total / |strata|) else Rounded(total, Whole(strata)))
  }

  /** What `entries` of n even shares hold together. */
  function EvenPart(total: nat, n: nat, entries: nat): int
    requires n > 0
  {
    (total / n) * entries
  }

  function Leftover(strata: seq<Stratum>, total: nat, how: AllocationMethod): int
    requires strata != []
  {
    match how
    case Equal => total - EvenPart(total, |strata|, |strata|)
    case Proportional => total - Sum(FirstCounts(strata, total, how))
  }

  /** The rounding remainder goes to the largest count. */
  function Allocate(strata: seq<Stratum>, total: nat, how: AllocationMethod): Allocation {
    if strata == [] then []
    else
      var d := FirstCounts(strata, total, how);
      var k := Largest(d);
      if Leftover(strata, total, how) == 0 then d
      else d[k := d[k].(count := d[k].count + Leftover(strata, total, how))]
  }

  lemma {:induction false} SumUpdated(d: Allocation, k: nat, count: int)
    requires k < |d|
    ensures Sum(d[k := d[k].(count := count)]) == Sum(d) - d[k].count + count
  {
    var n := |d| - 1;
    var r := d[k := d[k].(count := count)];
    if k < n {
      assert r[..n] == d[..n][k := d[..n][k].(count := count)];
      SumUpdated(d[..n], k, count);
    } else {
      assert r[..n] == d[..n];
    }
  }

  lemma SumAllocated(strata: seq<Stratum>, total: nat, how: AllocationMethod)
    requires strata != []
    ensures Sum(Allocate(strata, total, how)) == Sum(FirstCounts(strata, total, how)) + Leftover(strata, total, how)
  {
    var d := FirstCounts(strata, total, how);
    SumRaised(d, Largest(d), Leftover(strata, total, how));
  }

  lemma SumRaised(d: Allocation, k: nat, extra: int)
    requires k < |d|
    ensures Sum(if extra == 0 then d else d[k := d[k].(count := d[k].count + extra)]) == Sum(d) + extra
  {
    SumUpdated(d, k, d[k].count + extra);
  }

  /** Proportional allocation always adds up to the total, repeated labels or not. */
  lemma ProportionalSums(strata: seq<Stratum>, total: nat)
    requires strata != []
    ensures Sum(Allocate(strata, total, Proportional)) == total
  {
    SumAllocated(strata, total, Proportional);
  }

  lemma {:induction false} SumConstant(d: Allocation, c: int)
    requires CountsBetween(d, c, c)
    ensures Sum(d) == c * |d|
  {
    if d != [] {
      SumConstant(d[..|d| - 1], c);
      assert c * |d| == c * (|d| - 1) + c;
    }
  }

  lemma EvenParts(total: nat, n: nat, entries: nat)
    requires 0 < n && entries <= n
    ensures EvenPart(total, n, entries) == EvenPart(total, n, n) <==> entries == n || total < n
  {
    var share := total / n;
    if share > 0 && entries < n { assert share * entries < share * n; }
    if total >= n { assert total / n >= 1; }
  }

  lemma EvenTallySum(strata: seq<Stratum>, total: nat)
    requires strata != []
    ensures Sum(FirstCounts(strata, total, Equal)) == EvenPart(total, |strata|, |FirstCounts(strata, total, Equal)|)
  {
    var share := total / |strata|;
    TallyBetween(strata, Even(share), share, share);
    SumConstant(Tally(strata, Even(share)), share);
  }

  /** Equal allocation adds up to the total exactly when no label is repeated, or there are too few
      samples for every stratum to get one. */
  lemma {:induction false} EqualSums(strata: seq<Stratum>, total: nat)
    requires strata != []
    ensures Sum(Allocate(strata, total, Equal)) == total <==> DistinctNames(strata) || total < |strata|
  {
    SumAllocated(strata, total, Equal);
    EvenTallySum(strata, total);
    TallyDistinct(strata, Even(total / |strata|));
    EvenParts(total, |strata|, |FirstCounts(strata, total, Equal)|);
  }

  // ---- How far a proportional allocation is from the quotas ----

  predicate ValidStrata(strata: seq<Stratum>) {
    forall i :: 0 <= i < |strata| ==> strata[i].Valid()
  }

  lemma {:induction false} WholePositive(strata: seq<Stratum>)
    requires strata != [] && ValidStrata(strata)
    ensures Whole(strata) > 0.0
  {
    assert strata[|strata| - 1].Valid();
    if |strata| > 1 {
      WholePositive(strata[..|strata| - 1]);
    } else {
      assert Whole(strata[..0]) == 0.0;
    }
  }

  function Quotas(strata: seq<Stratum>, total: nat, whole: real): (r: seq<real>)
    ensures |r| == |strata|
  {
    if strata == [] then []
    else Quotas(strata[..|strata| - 1], total, whole) + [Quota(total, strata[|strata| - 1].proportion, whole)]
  }

  /** The exact shares of the total, one per stratum. */
  function ExactShares(strata: seq<Stratum>, total: nat): (r: seq<real>)
    ensures |r| == |strata|
  {
    Quotas(strata, total, Whole(strata))
  }

  lemma {:induction false} QuotaAt(strata: seq<Stratum>, total: nat, whole: real, i: nat)
    requires i < |strata|
    ensures Quotas(strata, total, whole)[i] == Quota(total, strata[i].proportion, whole)
  {
    if i < |strata| - 1 { QuotaAt(strata[..|strata| - 1], total, whole, i); }
  }

  function SumReal(vs: seq<real>): real {
    if vs == [] then 0.0 else SumReal(vs[..|vs| - 1]) + vs[|vs| - 1]
  }

  lemma QuotaAdds(total: nat, a: real, b: real, whole: real)
    requires whole != 0.0
    ensures Quota(total, a + b, whole) == Quota(total, a, whole) + Quota(total, b, whole)
  {
    var t := total as real;
    assert (a + b) / whole == a / whole + b / whole;
    assert t * (a / whole + b / whole) == t * (a / whole) + t * (b / whole);
  }

  lemma {:induction false} QuotasAddUp(strata: seq<Stratum>, total: nat, whole: real)
    requires whole != 0.0
    ensures SumReal(Quotas(strata, total, whole)) == Quota(total, Whole(strata), whole)
  {
    if strata == [] {
      assert 0.0 / whole == 0.0;
    } else {
      var n := |strata| - 1;
      QuotasAddUp(strata[..n], total, whole);
      QuotaAdds(total, Whole(strata[..n]), strata[n].proportion, whole);
      assert Quotas(strata, total, whole)[..n] == Quotas(strata[..n], total, whole);
    }
  }

  lemma WholeQuota(total: nat, whole: real)
    requires whole != 0.0
    ensures Quota(total, whole, whole) == total as real
  {}

  lemma SharesAreTotal(strata: seq<Stratum>, total: nat)
    requires strata != [] && ValidStrata(strata)
    ensures SumReal(ExactShares(strata, total)) == total as real
  {
    WholePositive(strata);
    QuotasAddUp(strata, total, Whole(strata));
    WholeQuota(total, Whole(strata));
  }

  /** Each entry is within 1/2 of its quota. */
  predicate Near(d: Allocation, quotas: seq<real>) {
    && |d| == |quotas|
    && (forall i :: 0 <= i < |d| ==> -0.5 <= d[i].count as real - quotas[i] <= 0.5)
  }

  function Half(n: int): real {
    n as real / 2.0
  }

  lemma {:induction false} SumNear(d: Allocation, quotas: seq<real>)
    requires Near(d, quotas)
    ensures -Half(|d|) <= Sum(d) as real - SumReal(quotas) <= Half(|d|)
  {
    if d != [] {
      SumNear(d[..|d| - 1], quotas[..|d| - 1]);
    }
  }

  /** The same with one entry left out. */
  lemma {:induction false} SumNearExcept(d: Allocation, quotas: seq<real>, k: nat)
    requires Near(d, quotas) && k < |d|
    ensures -Half(|d| - 1) <= (Sum(d) - d[k].count) as real - (SumReal(quotas) - quotas[k]) <= Half(|d| - 1)
  {
    var n := |d| - 1;
    if k == n {
      SumNear(d[..n], quotas[..n]);
    } else {
      SumNearExcept(d[..n], quotas[..n], k);
    }
  }

  lemma FirstCountsNear(strata: seq<Stratum>, total: nat)
    requires strata != [] && DistinctNames(strata)
    ensures Near(FirstCounts(strata, total, Proportional), ExactShares(strata, total))
  {
    var rule := Rounded(total, Whole(strata));
    TallyDistinct(strata, rule);
    forall i | 0 <= i < |strata|
      ensures -0.5 <= Tally(strata, rule)[i].count as real - ExactShares(strata, total)[i] <= 0.5
    {
      QuotaAt(strata, total, Whole(strata), i);
    }
  }

  lemma AllocatedEntries(strata: seq<Stratum>, total: nat)
    requires strata != []
    ensures var first := FirstCounts(strata, total, Proportional);
      var d := Allocate(strata, total, Proportional);
      var k := Largest(first);
      && |d| == |first|
      && d[k] == Share(first[k].name, total - (Sum(first) - first[k].count))
      && (forall i :: 0 <= i < |d| && i != k ==> d[i] == first[i])
  {}

  /** With distinct labels each stratum gets its exact share to within 1/2, the adjusted one to
      within (n - 1)/2. */
  lemma {:induction false} AllocationNearShares(strata: seq<Stratum>, total: nat, i: nat)
    requires DistinctNames(strata) && ValidStrata(strata) && i < |strata|
    ensures var d := Allocate(strata, total, Proportional);
      && |d| == |strata| && d[i].name == strata[i].name
      && var gap := d[i].count as real - ExactShares(strata, total)[i];
         if i == Largest(FirstCounts(strata, total, Proportional))
         then -Half(|strata| - 1) <= gap <= Half(|strata| - 1) else -0.5 <= gap <= 0.5
  {
    var first := FirstCounts(strata, total, Proportional);
    FirstCountsNear(strata, total);
    TallyDistinct(strata, Rounded(total, Whole(strata)));
    SharesAreTotal(strata, total);
    SumNearExcept(first, ExactShares(strata, total), Largest(first));
    AllocatedEntries(strata, total);
  }

  // ---- The allocation, count by count ----

  /** r is total * part / whole rounded to the nearest integer, ties to even. */
  predicate RoundsTo(total: nat, part: real, whole: real, r: int) {
    var gap := r as real * whole - total as real * part;
    && -whole <= 2.0 * gap <= whole
    && (2.0 * gap == whole || 2.0 * gap == -whole ==> r % 2 == 0)
  }

  lemma ScaledGap(r: int, q: real, whole: real, share: real)
    requires whole > 0.0 && q * whole == share
    requires -0.5 <= r as real - q <= 0.5 && (r as real - q == 0.5 || q - r as real == 0.5 ==> r % 2 == 0)
    ensures var gap := r as real * whole - share;
      -whole <= 2.0 * gap <= whole && (2.0 * gap == whole || 2.0 * gap == -whole ==> r % 2 == 0)
  {
    var g := r as real - q;
    assert r as real * whole - share == g * whole;
    TwiceScaled(g, whole);
  }

  lemma TwiceScaled(g: real, whole: real)
    requires whole > 0.0 && -0.5 <= g <= 0.5
    ensures -whole <= 2.0 * (g * whole) <= whole
    ensures 2.0 * (g * whole) == whole ==> g == 0.5
    ensures 2.0 * (g * whole) == -whole ==> g == -0.5
  {
    assert (0.5 - g) * whole >= 0.0 && (g + 0.5) * whole >= 0.0;
    assert (0.5 - g) * whole == 0.5 * whole - g * whole;
    assert (g + 0.5) * whole == g * whole + 0.5 * whole;
  }

  lemma QuotaRounds(total: nat, part: real, whole: real)
    requires whole > 0.0
    ensures RoundsTo(total, part, whole, Round(Quota(total, part, whole)))
  {
    var q := Quota(total, part, whole);
    assert (part / whole) * whole == part;
    assert q * whole == total as real * part;
    ScaledGap(Round(q), q, whole, total as real * part);
  }

  lemma {:induction false} WholeIsSum(strata: seq<Stratum>, parts: seq<real>)
    requires |parts| == |strata| && forall i :: 0 <= i < |strata| ==> parts[i] == strata[i].proportion
    ensures Whole(strata) == SumReal(parts)
  {
    if strata != [] { WholeIsSum(strata[..|strata| - 1], parts[..|parts| - 1]); }
  }

  /** With distinct labels every stratum gets its share of the total rounded, ties to even, except the first with
      the greatest rounded count, which takes what the others leave. */
  lemma {:induction false} ProportionalCounts(strata: seq<Stratum>, total: nat, parts: seq<real>) returns (k: nat, rounded: int)
    requires strata != [] && DistinctNames(strata) && ValidStrata(strata)
    requires |parts| == |strata| && forall i :: 0 <= i < |strata| ==> parts[i] == strata[i].proportion
    ensures var d := Allocate(strata, total, Proportional);
      && |d| == |strata| && k < |d| && Sum(d) == total
      && (forall i :: 0 <= i < |d| ==> d[i].name == strata[i].name)
      && (forall i :: 0 <= i < |d| && i != k ==> RoundsTo(total, parts[i], SumReal(parts), d[i].count))
      && RoundsTo(total, parts[k], SumReal(parts), rounded)
      && (forall i :: 0 <= i < k ==> d[i].count < rounded) && (forall i :: k < i < |d| ==> d[i].count <= rounded)
  {
    var first := FirstCounts(strata, total, Proportional);
    WholePositive(strata);
    WholeIsSum(strata, parts);
    TallyDistinct(strata, Rounded(total, Whole(strata)));
    AllocatedEntries(strata, total);
    ProportionalSums(strata, total);
    k := Largest(first);
    rounded := first[k].count;
    forall i | 0 <= i < |strata| ensures RoundsTo(total, parts[i], SumReal(parts), first[i].count) {
      QuotaRounds(total, parts[i], Whole(strata));
    }
  }

  lemma EqualRemainder(total: nat, n: nat)
    requires n > 0
    ensures total - EvenPart(total, n, n) == total % n
  {
    assert total == n * (total / n) + total % n;
  }

  lemma FirstRaised(d: Allocation, share: int, extra: int, i: nat)
    requires CountsBetween(d, share, share) && i < |d|
    ensures var k := Largest(d);
      var r := if extra == 0 then d else d[k := d[k].(count := d[k].count + extra)];
      |r| == |d| && r[i] == Share(d[i].name, share + (if i == 0 then extra else 0))
  {
    assert d[0].count == share && d[Largest(d)].count == share;
  }

  /** With distinct labels equal allocation gives every stratum the same, and the first what is left over besides. */
  lemma EqualCounts(strata: seq<Stratum>, total: nat, i: nat)
    requires DistinctNames(strata) && i < |strata|
    ensures var d := Allocate(strata, total, Equal);
      |d| == |strata| && d[i] == Share(strata[i].name, total / |strata| + (if i == 0 then total % |strata| else 0))
  {
    var share := total / |strata|;
    TallyDistinct(strata, Even(share));
    TallyBetween(strata, Even(share), share, share);
    EqualRemainder(total, |strata|);
    FirstRaised(FirstCounts(strata, total, Equal), share, Leftover(strata, total, Equal), i);
  }

  // ---- Counts that stay non-negative, and the points they ask for ----

  lemma {:induction false} LargestCarries(d: Allocation)
    requires d != []
    ensures Sum(d) <= |d| * d[Largest(d)].count
  {
    var top := d[Largest(d)].count;
    SumBelow(d, top);
  }

  lemma {:induction false} SumBelow(d: Allocation, top: int)
    requires forall i :: 0 <= i < |d| ==> d[i].count <= top
    ensures Sum(d) <= |d| * top
  {
    if d != [] {
      SumBelow(d[..|d| - 1], top);
      assert |d| * top == (|d| - 1) * top + top;
    }
  }

  lemma QuotaPositive(total: nat, part: real, whole: real)
    requires part > 0.0 && whole > 0.0
    ensures Quota(total, part, whole) >= 0.0
  {
    assert part / whole > 0.0;
  }

  lemma FirstCountsNonNegative(strata: seq<Stratum>, total: nat)
    requires strata != [] && ValidStrata(strata)
    ensures forall i :: 0 <= i < |FirstCounts(strata, total, Proportional)| ==> FirstCounts(strata, total, Proportional)[i].count >= 0
  {
    WholePositive(strata);
    RoundedNonNegative(strata, total, Whole(strata));
  }

  lemma {:induction false} RoundedNonNegative(strata: seq<Stratum>, total: nat, whole: real)
    requires ValidStrata(strata) && whole > 0.0
    ensures forall i :: 0 <= i < |Tally(strata, Rounded(total, whole))| ==> Tally(strata, Rounded(total, whole))[i].count >= 0
  {
    if strata != [] {
      var n := |strata| - 1;
      RoundedNonNegative(strata[..n], total, whole);
      QuotaPositive(total, strata[n].proportion, whole);
    }
  }

  /** How many points a run over the allocation produces: a negative count produces none. */
  function Points(d: Allocation): nat {
    if d == [] then 0
    else Points(d[..|d| - 1]) + (if d[|d| - 1].count > 0 then d[|d| - 1].count else 0)
  }

  lemma {:induction false} PointsExceed(d: Allocation)
    ensures Points(d) >= Sum(d)
    ensures Points(d) == Sum(d) <==> forall i :: 0 <= i < |d| ==> d[i].count >= 0
  {
    if d != [] { PointsExceed(d[..|d| - 1]); }
  }

  /** Exactly `total` points are produced if and only if the rounded counts of the strata other than
      the largest do not already exceed the total. */
  lemma ExactPoints(strata: seq<Stratum>, total: nat)
    requires strata != [] && ValidStrata(strata)
    ensures var first := FirstCounts(strata, total, Proportional);
      Points(Allocate(strata, total, Proportional)) == total
      <==> Sum(first) - first[Largest(first)].count <= total
  {
    var first := FirstCounts(strata, total, Proportional);
    var d := Allocate(strata, total, Proportional);
    ProportionalSums(strata, total);
    FirstCountsNonNegative(strata, total);
    PointsExceed(d);
    assert d[Largest(first)].count == first[Largest(first)].count + total - Sum(first);
  }

  lemma EvenRemainder(total: nat, n: nat)
    requires n > 0
    ensures 0 <= total / n && 0 <= total - EvenPart(total, n, n)
  {
    assert total == n * (total / n) + total % n;
  }

  lemma RaisedNonNegative(d: Allocation, k: nat, extra: nat, top: int)
    requires k < |d| && CountsBetween(d, 0, top)
    ensures forall e <- (if extra == 0 then d else d[k := d[k].(count := d[k].count + extra)]) :: e.count >= 0
  {}

  lemma EqualNonNegative(strata: seq<Stratum>, total: nat)
    requires strata != []
    ensures forall e <- Allocate(strata, total, Equal) :: e.count >= 0
  {
    var share := total / |strata|;
    EvenRemainder(total, |strata|);
    TallyBetween(strata, Even(share), 0, share);
    var first := FirstCounts(strata, total, Equal);
    RaisedNonNegative(first, Largest(first), Leftover(strata, total, Equal), share);
  }

  /** Equal allocation produces exactly `total` points if and only if no label is repeated, or there are too
      few samples for each stratum to get one. */
  lemma EqualPoints(strata: seq<Stratum>, total: nat)
    requires strata != []
    ensures Points(Allocate(strata, total, Equal)) == total <==> DistinctNames(strata) || total < |strata|
  {
    EqualNonNegative(strata, total);
    PointsExceed(Allocate(strata, total, Equal));
    EqualSums(strata, total);
  }

  lemma Scale(n: int, a: int, b: int)
    requires n >= 0 && a <= b
    ensures n * a <= n * b
  {}

  lemma ManySamples(n: int, total: int, top: int, rest: int)
    requires n >= 1 && n * (n - 1) <= 2 * total && total - rest <= n * top && -n <= 2 * rest
    ensures top + rest >= 0
  {
    Scale(n - 1, -n, 2 * rest);
    assert (n - 1) * (2 * rest) == 2 * (n * rest) - 2 * rest;
    assert (n - 1) * -n == -(n * (n - 1));
    assert n * (top + rest) == n * top + n * rest;
    if top + rest < 0 { Scale(n, top + rest, -1); }
  }

  /** There are always enough samples when twice their number is at least n(n - 1). */
  lemma {:induction false} EnoughSamples(strata: seq<Stratum>, total: nat)
    requires strata != [] && DistinctNames(strata) && ValidStrata(strata)
    requires |strata| * (|strata| - 1) <= 2 * total
    ensures Points(Allocate(strata, total, Proportional)) == total
  {
    var first := FirstCounts(strata, total, Proportional);
    FirstCountsNear(strata, total);
    SharesAreTotal(strata, total);
    SumNear(first, ExactShares(strata, total));
    LargestCarries(first);
    ManySamples(|strata|, total, first[Largest(first)].count, total - Sum(first));
    ExactPoints(strata, total);
  }

  // ---- A family that misses its total ----

  predicate Uniform(strata: seq<Stratum>, proportion: real) {
    forall i :: 0 <= i < |strata| ==> strata[i].proportion == proportion
  }

  function Times(n: int, p: real): real {
    n as real * p
  }

  lemma OneMoreTime(n: int, p: real)
    ensures Times(n, p) == Times(n - 1, p) + p
  {}

  lemma {:induction false} UniformWhole(strata: seq<Stratum>, proportion: real)
    requires Uniform(strata, proportion)
    ensures Whole(strata) == Times(|strata|, proportion)
  {
    if strata == [] {
      assert Times(0, proportion) == 0.0;
    } else {
      UniformWhole(strata[..|strata| - 1], proportion);
      OneMoreTime(|strata|, proportion);
    }
  }

  lemma UniformQuota(total: nat, n: nat, proportion: real, whole: real)
    requires n > 0 && proportion > 0.0 && whole == Times(n, proportion)
    ensures Quota(total, proportion, whole) == total as real / n as real
  {
    var m := n as real;
    assert proportion / whole == 1.0 / m by {
      assert (1.0 / m) * (m * proportion) == proportion;
    }
    assert total as real * (1.0 / m) == total as real / m;
  }

  lemma UniformShare(strata: seq<Stratum>, total: nat, proportion: real)
    requires strata != [] && ValidStrata(strata) && Uniform(strata, proportion)
    ensures Quota(total, proportion, Whole(strata)) == total as real / |strata| as real
  {
    assert strata[0].Valid();
    UniformWhole(strata, proportion);
    UniformQuota(total, |strata|, proportion, Whole(strata));
  }

  lemma UniformFirstCounts(strata: seq<Stratum>, total: nat, proportion: real)
    requires strata != [] && DistinctNames(strata) && ValidStrata(strata) && Uniform(strata, proportion)
    ensures var first := FirstCounts(strata, total, Proportional);
      var share := Round(total as real / |strata| as real);
      |first| == |strata| && CountsBetween(first, share, share)
  {
    var share := Round(total as real / |strata| as real);
    var rule := Rounded(total, Whole(strata));
    UniformShare(strata, total, proportion);
    UniformCount(rule, strata, proportion, share);
    TallyDistinct(strata, rule);
  }

  lemma UniformCount(rule: CountRule, strata: seq<Stratum>, proportion: real, share: int)
    requires rule.Rounded? && Uniform(strata, proportion) && Round(Quota(rule.total, proportion, rule.whole)) == share
    ensures CountsBetween(Tally(strata, rule), share, share)
  {
    TallyBetween(strata, rule, share, share);
  }

  /** n equal strata get exactly `total` points if and only if n - 1 rounded shares fit in it. */
  lemma {:induction false} UniformPoints(strata: seq<Stratum>, total: nat, proportion: real)
    requires strata != [] && DistinctNames(strata) && ValidStrata(strata) && Uniform(strata, proportion)
    ensures Points(Allocate(strata, total, Proportional)) == total
      <==> Round(total as real / |strata| as real) * (|strata| - 1) <= total
  {
    var first := FirstCounts(strata, total, Proportional);
    UniformFirstCounts(strata, total, proportion);
    SumConstant(first, first[0].count);
    ExactPoints(strata, total);
    assert first[0].count * |strata| - first[0].count == first[0].count * (|strata| - 1);
  }

  lemma RoundedShare()
    ensures Round(1000.0 / 666.0) == 2
  {
    var x := 1000.0 / 666.0;
    assert 1.5 < x < 2.0;
    assert x.Floor == 1;
  }

  /** Within the platform's own limits the promised sample size is missed: 1000 samples over 666
      equal strata. */
  lemma SampleSizeMissed(strata: seq<Stratum>, proportion: real)
    requires |strata| == 666 && DistinctNames(strata) && ValidStrata(strata) && Uniform(strata, proportion)
    ensures Points(Allocate(strata, 1000, Proportional)) != 1000
  {
    UniformPoints(strata, 1000, proportion);
    RoundedShare();
    assert 1000 as real / 666 as real == 1000.0 / 666.0;
  }

  /** Labels of different lengths. */
  function Label(length: nat): string {
    seq(length, _ => 'a')
  }

  function EqualStrata(n: nat): (strata: seq<Stratum>)
    ensures |strata| == n
  {
    if n == 0 then [] else EqualStrata(n - 1) + [Stratum(Label(n), 0.5)]
  }

  lemma {:induction false} EqualStrataLabels(n: nat, length: nat)
    requires length > n
    ensures !Named(EqualStrata(n), Label(length))
  {
    if n > 0 {
      EqualStrataLabels(n - 1, length);
      assert EqualStrata(n)[..n - 1] == EqualStrata(n - 1);
      assert |Label(length)| == length && |Label(n)| == n;
    }
  }

  lemma {:induction false} EqualStrataDistinct(n: nat)
    ensures ValidStrata(EqualStrata(n)) && Uniform(EqualStrata(n), 0.5) && DistinctNames(EqualStrata(n))
  {
    if n > 0 {
      EqualStrataDistinct(n - 1);
      EqualStrataLabels(n - 1, n);
      assert EqualStrata(n)[..n - 1] == EqualStrata(n - 1);
    }
  }

  /** Such strata exist. */
  lemma SampleSizeMissedOnce()
    ensures var strata := EqualStrata(666);
      ValidStrata(strata) && DistinctNames(strata) && Points(Allocate(strata, 1000, Proportional)) != 1000
  {
    EqualStrataDistinct(666);
    SampleSizeMissed(EqualStrata(666), 0.5);
  }
}
