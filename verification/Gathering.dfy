/** What the analysis pipeline reads from the ledger: the newest results of the dependencies, and the
    history of other assessments. */
module Gathering {
  import opened Results
  import opened Stages
  import opened Assessments
  import opened Platform

  predicate CompletedFor(row: StageResult, tenant: nat, id: nat, s: StageType) {
    row.tenant == tenant && row.assessment == id && row.stage == s && row.indicators.Some?
  }

  /** The row read as latest is a COMPLETE one of the highest version, the last of them in the ledger. */
  lemma {:induction false} LatestIsNewest(rs: seq<StageResult>, tenant: nat, id: nat, s: StageType)
    ensures match Latest(rs, tenant, id, s)
      case None => forall j :: 0 <= j < |rs| ==> !CompletedFor(rs[j], tenant, id, s)
      case Some(k) =>
        && CompletedFor(rs[k], tenant, id, s)
        && (forall j :: 0 <= j < |rs| && CompletedFor(rs[j], tenant, id, s) ==>
              rs[j].version < rs[k].version || (rs[j].version == rs[k].version && j <= k))
  {
    if rs != [] { LatestIsNewest(rs[..|rs| - 1], tenant, id, s); }
  }

  /** The i-th pair is the last that maps to the code. */
  predicate LastFor(mapping: seq<(string, string)>, i: nat, code: string) {
    i < |mapping| && mapping[i].1 == code && forall j :: i < j < |mapping| ==> mapping[j].1 != code
  }

  predicate Unmapped(mapping: seq<(string, string)>, code: string) {
    forall i :: 0 <= i < |mapping| ==> mapping[i].1 != code
  }

  function Reading(indicators: Indicators, source: string): Option<real> {
    if source in indicators then Some(indicators[source]) else None
  }

  /** A code no pair maps to is left alone. */
  lemma {:induction false} FillKeeps(inputs: Inputs, mapping: seq<(string, string)>, indicators: Indicators, code: string)
    requires Unmapped(mapping, code)
    ensures var filled := Fill(inputs, mapping, indicators);
      (code in filled <==> code in inputs) && (code in inputs ==> filled[code] == inputs[code])
  {
    if mapping != [] { FillKeeps(inputs, mapping[..|mapping| - 1], indicators, code); }
  }

  /** A mapped code holds what the last pair for it names, or nothing if the result lacks that. */
  lemma {:induction false} FillReads(inputs: Inputs, mapping: seq<(string, string)>, indicators: Indicators, code: string, i: nat)
    requires LastFor(mapping, i, code)
    ensures var filled := Fill(inputs, mapping, indicators);
      code in filled && filled[code] == Reading(indicators, mapping[i].0)
  {
    var n := |mapping| - 1;
    if i < n { FillReads(inputs, mapping[..n], indicators, code, i); }
  }

  predicate Renames(deps: seq<Dependency>, i: nat, j: nat, code: string) {
    i < |deps| && j < |deps[i].mapping| && deps[i].mapping[j].1 == code
  }

  /** Gathering succeeds exactly when every dependency has a COMPLETE result. */
  lemma {:induction false} CollectSucceedsIff(rs: seq<StageResult>, tenant: nat, id: nat, deps: seq<Dependency>)
    ensures Collect(rs, tenant, id, deps).Some? <==> forall i :: 0 <= i < |deps| ==> Latest(rs, tenant, id, deps[i].stage).Some?
  {
    if deps != [] {
      CollectSucceedsIff(rs, tenant, id, deps[..|deps| - 1]);
    }
  }

  /** The j-th pair of the i-th dependency is the last of all that map to its code. */
  ghost predicate LastRename(deps: seq<Dependency>, i: nat, j: nat, code: string) {
    Renames(deps, i, j, code) && forall k: nat, l: nat :: Renames(deps, k, l, code) ==> k < i || (k == i && l <= j)
  }

  lemma RenamesBefore(deps: seq<Dependency>, front: seq<Dependency>, code: string)
    requires deps != [] && front == deps[..|deps| - 1]
    ensures forall k: nat, l: nat :: Renames(front, k, l, code) <==> k < |front| && Renames(deps, k, l, code)
  {}

  lemma NoRenames(deps: seq<Dependency>, k: nat, from: nat, code: string)
    requires k < |deps| && forall l: nat :: from <= l ==> !Renames(deps, k, l, code)
    ensures forall l :: from <= l < |deps[k].mapping| ==> deps[k].mapping[l].1 != code
  {
    forall l | from <= l < |deps[k].mapping| ensures deps[k].mapping[l].1 != code {
      assert !Renames(deps, k, l, code);
    }
  }

  lemma LastHasNoMore(deps: seq<Dependency>, i: nat, j: nat, code: string)
    requires LastRename(deps, i, j, code)
    ensures i < |deps| - 1 ==> LastRename(deps[..|deps| - 1], i, j, code) && Unmapped(deps[|deps| - 1].mapping, code)
    ensures i == |deps| - 1 ==> LastFor(deps[i].mapping, j, code)
  {
    var n := |deps| - 1;
    RenamesBefore(deps, deps[..n], code);
    if i < n { NoRenames(deps, n, 0, code); }
    else { NoRenames(deps, n, j + 1, code); }
  }

  /** An input code is read from the latest result of the last dependency that maps to it, as its last pair
      for it says. */
  lemma {:induction false} CollectReads(rs: seq<StageResult>, tenant: nat, id: nat, deps: seq<Dependency>, i: nat, j: nat,
                                        code: string)
    requires Collect(rs, tenant, id, deps).Some? && LastRename(deps, i, j, code)
    requires Latest(rs, tenant, id, deps[i].stage).Some?
    ensures var inputs := Collect(rs, tenant, id, deps).value;
      var indicators := rs[Latest(rs, tenant, id, deps[i].stage).value].indicators.value;
      code in inputs && inputs[code] == Reading(indicators, deps[i].mapping[j].0)
  {
    var n := |deps| - 1;
    var before := Collect(rs, tenant, id, deps[..n]).value;
    var last := rs[Latest(rs, tenant, id, deps[n].stage).value].indicators.value;
    LastHasNoMore(deps, i, j, code);
    if i < n {
      CollectReads(rs, tenant, id, deps[..n], i, j, code);
      FillKeeps(before, deps[n].mapping, last, code);
    } else {
      FillReads(before, deps[n].mapping, last, code, j);
    }
  }

  /** Codes that no dependency maps to are not among the inputs. */
  lemma {:induction false} CollectOnly(rs: seq<StageResult>, tenant: nat, id: nat, deps: seq<Dependency>, code: string)
    requires Collect(rs, tenant, id, deps).Some? && forall k: nat :: k < |deps| ==> Unmapped(deps[k].mapping, code)
    ensures code !in Collect(rs, tenant, id, deps).value
  {
    if deps != [] {
      var n := |deps| - 1;
      forall k: nat | k < n ensures Unmapped(deps[..n][k].mapping, code) { assert deps[..n][k] == deps[k]; }
      CollectOnly(rs, tenant, id, deps[..n], code);
      var last := rs[Latest(rs, tenant, id, deps[n].stage).value].indicators.value;
      FillKeeps(Collect(rs, tenant, id, deps[..n]).value, deps[n].mapping, last, code);
    }
  }

  /** A COMPLETE result of the same tenant, hazard and stage, but of another assessment. */
  predicate Comparable(row: StageResult, tenant: nat, hazard: HazardType, s: StageType, excluded: nat) {
    row.tenant == tenant && row.hazard == hazard && row.stage == s && row.Completed() && row.assessment != excluded
  }

  /** The positions of comparable rows, oldest first. */
  function ComparablePositions(rs: seq<StageResult>, tenant: nat, hazard: HazardType, s: StageType, excluded: nat): (ps: seq<nat>)
    ensures forall i :: 0 <= i < |ps| ==> ps[i] < |rs| && Comparable(rs[ps[i]], tenant, hazard, s, excluded)
    ensures forall i, j :: 0 <= i < j < |ps| ==> ps[i] < ps[j]
    ensures forall k :: 0 <= k < |rs| && Comparable(rs[k], tenant, hazard, s, excluded) ==> k in ps
  {
    if rs == [] then []
    else
      var n := |rs| - 1;
      var before := ComparablePositions(rs[..n], tenant, hazard, s, excluded);
      if Comparable(rs[n], tenant, hazard, s, excluded) then before + [n] else before
  }

  predicate NewestFirst(rs: seq<StageResult>, ps: seq<nat>, all: seq<Inputs>) {
    && |all| == |ps| && (forall i :: 0 <= i < |ps| ==> ps[i] < |rs|)
    && (forall i :: 0 <= i < |all| ==> all[i] == rs[ps[|ps| - 1 - i]].snapshot)
  }

  lemma OneRowNewer(rs: seq<StageResult>, ps: seq<nat>, all: seq<Inputs>)
    requires rs != [] && NewestFirst(rs[..|rs| - 1], ps, all)
    ensures NewestFirst(rs, ps, all)
    ensures NewestFirst(rs, ps + [|rs| - 1], [rs[|rs| - 1].snapshot] + all)
  {}

  /** The history is the snapshots of exactly the comparable rows, newest first. */
  lemma {:induction false} HistoricalIsComparable(rs: seq<StageResult>, tenant: nat, hazard: HazardType, s: StageType, excluded: nat)
    ensures NewestFirst(rs, ComparablePositions(rs, tenant, hazard, s, excluded), Historical(rs, tenant, hazard, s, excluded))
  {
    if rs != [] {
      var n := |rs| - 1;
      HistoricalIsComparable(rs[..n], tenant, hazard, s, excluded);
      OneRowNewer(rs, ComparablePositions(rs[..n], tenant, hazard, s, excluded), Historical(rs[..n], tenant, hazard, s, excluded));
    }
  }

  predicate SnapshotOfAnother(rs: seq<StageResult>, tenant: nat, hazard: HazardType, s: StageType, excluded: nat,
                              snapshot: Inputs)
  {
    exists k :: 0 <= k < |rs| && Comparable(rs[k], tenant, hazard, s, excluded) && rs[k].snapshot == snapshot
  }

  /** The snapshots of the newest comparable rows, at most 200 of them, newest first; none for a stage that
      does not use history. */
  predicate Sees(ex: Executors, rs: seq<StageResult>, tenant: nat, hazard: HazardType, id: nat, s: StageType, seen: seq<Inputs>) {
    if ex.usesHistory(hazard, s) then
      var ps := ComparablePositions(rs, tenant, hazard, s, id);
      && |seen| == (if |ps| < 200 then |ps| else 200)
      && (forall i :: 0 <= i < |seen| ==> seen[i] == rs[ps[|ps| - 1 - i]].snapshot)
    else seen == []
  }

  lemma ComparisonSeen(ex: Executors, rs: seq<StageResult>, tenant: nat, hazard: HazardType, id: nat, s: StageType)
    ensures Sees(ex, rs, tenant, hazard, id, s, Comparison(ex, rs, tenant, hazard, id, s))
  {
    HistoricalIsComparable(rs, tenant, hazard, s, id);
  }

  /** An execution is compared with exactly these snapshots, all of other assessments. */
  lemma ComparisonIsOthers(ex: Executors, rs: seq<StageResult>, tenant: nat, hazard: HazardType, id: nat, s: StageType)
    ensures var seen := Comparison(ex, rs, tenant, hazard, id, s);
      && Sees(ex, rs, tenant, hazard, id, s, seen)
      && (forall i :: 0 <= i < |seen| ==> SnapshotOfAnother(rs, tenant, hazard, s, id, seen[i]))
  {
    var seen := Comparison(ex, rs, tenant, hazard, id, s);
    ComparisonSeen(ex, rs, tenant, hazard, id, s);
    forall i | 0 <= i < |seen| ensures SnapshotOfAnother(rs, tenant, hazard, s, id, seen[i]) {
      SeenIsAnother(ex, rs, tenant, hazard, id, s, seen, i);
    }
  }

  lemma SeenIsAnother(ex: Executors, rs: seq<StageResult>, tenant: nat, hazard: HazardType, id: nat, s: StageType,
                      seen: seq<Inputs>, i: nat)
    requires Sees(ex, rs, tenant, hazard, id, s, seen) && i < |seen|
    ensures SnapshotOfAnother(rs, tenant, hazard, s, id, seen[i])
  {
    var ps := ComparablePositions(rs, tenant, hazard, s, id);
    var k := ps[|ps| - 1 - i];
    assert Comparable(rs[k], tenant, hazard, s, id) && rs[k].snapshot == seen[i];
  }

  // ---- What a row was computed from ----

  /** The inputs the row of this assessment and stage would read: from the provider for a stage without
      dependencies, from the latest results of the dependencies otherwise. */
  predicate Reads(ex: Executors, rs: seq<StageResult>, row: StageResult, raw: Inputs) {
    var deps := ex.dependencies(row.hazard, row.stage);
    if deps == [] then ex.provide(|rs|, row.hazard, row.stage) == Some(raw)
    else Collect(rs, row.tenant, row.assessment, deps) == Some(raw)
  }

  predicate Inspects(ex: Executors, rs: seq<StageResult>, row: StageResult, raw: Inputs, seen: seq<Inputs>) {
    Reads(ex, rs, row, raw) && Sees(ex, rs, row.tenant, row.hazard, row.assessment, row.stage, seen)
  }

  /** The computed values laid over the inputs, code by code. */
  predicate Enriches(raw: Inputs, indicators: Indicators, snapshot: Inputs) {
    && snapshot.Keys == raw.Keys + indicators.Keys
    && (forall code <- snapshot :: snapshot[code] == if code in indicators then Some(indicators[code]) else raw[code])
  }

  /** The row holds what the calculator makes of these inputs and this history, and says how much history
      that was. */
  predicate ComputedFrom(ex: Executors, rs: seq<StageResult>, row: StageResult, raw: Inputs, seen: seq<Inputs>) {
    && Inspects(ex, rs, row, raw, seen)
    && row.indicators.Some? && ex.compute(row.hazard, row.stage, raw, seen) == row.indicators
    && Enriches(raw, row.indicators.value, row.snapshot)
    && row.historicalCount == |seen|
    && row.confidence == Some(if |seen| + 1 >= 5 then High else if |seen| + 1 >= 2 then Moderate else Low)
    && row.error == None
  }

  /** A row added to this ledger: computed in full if it can be, and otherwise FAILED and empty. */
  ghost predicate Explained(ex: Executors, rs: seq<StageResult>, row: StageResult) {
    && row.formula.strategy == ex.strategy(row.hazard)
    && row.formula.calculator == (if row.formula.strategy.None? then None else ex.calculator(row.hazard, row.stage))
    && if row.indicators.Some? then
         row.formula.calculator.Some? && exists raw, seen :: ComputedFrom(ex, rs, row, raw, seen)
       else
         && row.snapshot == map[] && row.historicalCount == 0 && row.confidence == None && row.error.Some?
         && (row.formula.calculator.Some? ==>
               forall raw, seen :: Inspects(ex, rs, row, raw, seen) ==> ex.compute(row.hazard, row.stage, raw, seen) == None)
  }

  lemma SeesOne(ex: Executors, rs: seq<StageResult>, tenant: nat, hazard: HazardType, id: nat, s: StageType,
                seen: seq<Inputs>, other: seq<Inputs>)
    requires Sees(ex, rs, tenant, hazard, id, s, seen) && Sees(ex, rs, tenant, hazard, id, s, other)
    ensures seen == other
  {}

  lemma OverlayEnriches(raw: Inputs, indicators: Indicators)
    ensures Enriches(raw, indicators, Overlay(raw, indicators))
  {}

  /** No other inputs and no other history would do. */
  lemma InspectsOne(ex: Executors, rs: seq<StageResult>, row: StageResult, raw: Inputs, seen: seq<Inputs>)
    requires Inspects(ex, rs, row, raw, seen)
    ensures forall raw', seen' :: Inspects(ex, rs, row, raw', seen') ==> raw' == raw && seen' == seen
  {
    forall raw', seen' | Inspects(ex, rs, row, raw', seen') ensures raw' == raw && seen' == seen {
      SeesOne(ex, rs, row.tenant, row.hazard, row.assessment, row.stage, seen, seen');
    }
  }

  lemma NextInspects(ex: Executors, rs: seq<StageResult>, row: StageResult, raw: Inputs)
    requires Gather(ex, rs, row.tenant, row.hazard, row.assessment, row.stage) == Some(raw)
    ensures Inspects(ex, rs, row, raw, Comparison(ex, rs, row.tenant, row.hazard, row.assessment, row.stage))
  {
    ComparisonSeen(ex, rs, row.tenant, row.hazard, row.assessment, row.stage);
  }

  /** The pipeline's next row, on any ledger, explains itself. */
  lemma NextExplained(ex: Executors, rs: seq<StageResult>, a: AssessmentState, id: nat, s: StageType)
    ensures Explained(ex, rs, NextResult(ex, rs, a, id, s))
  {
    var row := NextResult(ex, rs, a, id, s);
    match Gather(ex, rs, a.tenant, a.hazard, id, s)
    case None =>
    case Some(raw) =>
      NextInspects(ex, rs, row, raw);
      if row.indicators.Some? {
        OverlayEnriches(raw, row.indicators.value);
        assert ComputedFrom(ex, rs, row, raw, Comparison(ex, rs, a.tenant, a.hazard, id, s));
      } else {
        InspectsOne(ex, rs, row, raw, Comparison(ex, rs, a.tenant, a.hazard, id, s));
      }
  }
}
