/** The evidence ledger against the workflow: two stores kept apart, tied together by the
    attempt counts and the result references. */
module Evidence {
  import opened Results
  import opened Stages
  import opened Assessments
  import opened Platform
  import opened Gathering
  import opened Engine

  function RowsFor(rs: seq<StageResult>, tenant: nat, id: nat, s: StageType): seq<StageResult> {
    if rs == [] then []
    else
      var last := rs[|rs| - 1];
      RowsFor(rs[..|rs| - 1], tenant, id, s)
      + (if last.tenant == tenant && last.assessment == id && last.stage == s then [last] else [])
  }

  predicate Versioned(rows: seq<StageResult>) {
    forall i :: 0 <= i < |rows| ==> rows[i].version == i + 1
  }

  /** Versions are exactly 1..attempts; a COMPLETE stage has one COMPLETE row, the last, which is
      the one its entry names and the one read as latest; any other stage has none. */
  predicate LedgerMatches(rs: seq<StageResult>, tenant: nat, id: nat, e: StageEntry) {
    var rows := RowsFor(rs, tenant, id, e.stageType);
    && Versioned(rows) && |rows| == e.attempts
    && (forall i :: 0 <= i < |rows| - 1 ==> !rows[i].Completed())
    && (rows != [] ==> (rows[|rows| - 1].Completed() <==> e.status == StageStatus.Complete))
    && match Latest(rs, tenant, id, e.stageType)
       case None => e.status != StageStatus.Complete
       case Some(k) =>
         e.status == StageStatus.Complete && e.resultRef == Some(ResultRow(k))
         && rows != [] && rs[k] == rows[|rows| - 1]
  }

  lemma RowAppended(rs: seq<StageResult>, row: StageResult, tenant: nat, id: nat, s: StageType)
    ensures RowsFor(rs + [row], tenant, id, s)
         == RowsFor(rs, tenant, id, s) + (if row.Of(tenant, id, s) then [row] else [])
    ensures !(row.Of(tenant, id, s) && row.Completed()) ==> Latest(rs + [row], tenant, id, s) == Latest(rs, tenant, id, s)
    ensures row.Of(tenant, id, s) && row.Completed() && Latest(rs, tenant, id, s) == None
      ==> Latest(rs + [row], tenant, id, s) == Some(|rs|)
  {
    assert (rs + [row])[..|rs|] == rs;
  }

  lemma {:induction false} MaxVersionIsCount(rs: seq<StageResult>, tenant: nat, id: nat, s: StageType)
    requires Versioned(RowsFor(rs, tenant, id, s))
    ensures MaxVersion(rs, tenant, id, s) == |RowsFor(rs, tenant, id, s)|
  {
    if rs != [] {
      var rows := RowsFor(rs, tenant, id, s);
      var before := RowsFor(rs[..|rs| - 1], tenant, id, s);
      assert before == rows[..|before|];
      MaxVersionIsCount(rs[..|rs| - 1], tenant, id, s);
      assert rs[|rs| - 1].Of(tenant, id, s) ==> rows[|rows| - 1] == rs[|rs| - 1];
    }
  }

  predicate Placed(ex: Executors, w: World, row: StageResult) {
    && row.assessment < |w.assessments|
    && row.tenant == w.assessments[row.assessment].state.tenant
    && row.hazard == w.assessments[row.assessment].state.hazard
    && row.stage in ex.analysis
  }

  /** Every analysis stage of every assessment has exactly the evidence its entry claims. */
  predicate LedgerSound(ex: Executors, w: World) {
    && (forall id, s :: 0 <= id < |w.assessments| && s in ex.analysis ==>
          LedgerMatches(w.results, w.assessments[id].state.tenant, id, ProgressOf(w, id).Get(s)))
    && (forall k :: 0 <= k < |w.results| ==> Placed(ex, w, w.results[k]))
  }

  // ---- Freshness ----

  function CollectFor(ex: Executors, rs: seq<StageResult>, row: StageResult): Option<Inputs> {
    Collect(rs, row.tenant, row.assessment, ex.dependencies(row.hazard, row.stage))
  }

  /** The row says what it was computed from when it was added, and gathering its inputs again yields the same. */
  ghost predicate Fresh(ex: Executors, rs: seq<StageResult>, k: nat)
    requires k < |rs|
  {
    && Explained(ex, rs[..k], rs[k])
    && (rs[k].Completed() && ex.dependencies(rs[k].hazard, rs[k].stage) != [] ==>
          CollectFor(ex, rs, rs[k]).Some? && CollectFor(ex, rs, rs[k]) == CollectFor(ex, rs[..k], rs[k]))
  }

  ghost predicate AllFresh(ex: Executors, rs: seq<StageResult>) {
    forall k :: 0 <= k < |rs| ==> Fresh(ex, rs, k)
  }

  /** So the inputs read now are those it was computed from. */
  lemma FreshInputs(ex: Executors, rs: seq<StageResult>, k: nat) returns (seen: seq<Inputs>)
    requires k < |rs| && Fresh(ex, rs, k) && rs[k].Completed() && ex.dependencies(rs[k].hazard, rs[k].stage) != []
    ensures ComputedFrom(ex, rs[..k], rs[k], CollectFor(ex, rs, rs[k]).value, seen)
  {
    var raw, history :| ComputedFrom(ex, rs[..k], rs[k], raw, history);
    seen := history;
  }

  lemma {:induction false} CollectNeedsAll(rs: seq<StageResult>, tenant: nat, id: nat, deps: seq<Dependency>)
    requires Collect(rs, tenant, id, deps).Some?
    ensures forall dep <- deps :: Latest(rs, tenant, id, dep.stage).Some?
  {
    if deps != [] {
      var n := |deps| - 1;
      CollectNeedsAll(rs, tenant, id, deps[..n]);
      assert deps == deps[..n] + [deps[n]];
    }
  }

  lemma {:induction false} CollectSame(rs: seq<StageResult>, row: StageResult, tenant: nat, id: nat, deps: seq<Dependency>)
    requires forall dep <- deps :: Latest(rs + [row], tenant, id, dep.stage) == Latest(rs, tenant, id, dep.stage)
    ensures Collect(rs + [row], tenant, id, deps) == Collect(rs, tenant, id, deps)
  {
    if deps != [] {
      var n := |deps| - 1;
      CollectSame(rs, row, tenant, id, deps[..n]);
      assert deps[n] in deps;
    }
  }

  /** A new row of a stage with no COMPLETE result changes nothing that was gathered before. */
  lemma CollectStable(rs: seq<StageResult>, row: StageResult, tenant: nat, id: nat, deps: seq<Dependency>)
    requires Latest(rs, row.tenant, row.assessment, row.stage) == None
    requires Collect(rs, tenant, id, deps).Some?
    ensures Collect(rs + [row], tenant, id, deps) == Collect(rs, tenant, id, deps)
  {
    CollectNeedsAll(rs, tenant, id, deps);
    forall dep <- deps ensures Latest(rs + [row], tenant, id, dep.stage) == Latest(rs, tenant, id, dep.stage) {
      RowAppended(rs, row, tenant, id, dep.stage);
    }
    CollectSame(rs, row, tenant, id, deps);
  }

  /** A ledger only grows, and what COMPLETE rows were computed from still reads the same. */
  ghost predicate Preserves(ex: Executors, rs: seq<StageResult>, rs': seq<StageResult>) {
    && rs <= rs'
    && (forall k :: 0 <= k < |rs| && rs[k].Completed() && ex.dependencies(rs[k].hazard, rs[k].stage) != [] ==>
          CollectFor(ex, rs', rs[k]) == CollectFor(ex, rs, rs[k]))
  }

  lemma NewRowFresh(ex: Executors, rs: seq<StageResult>, a: AssessmentState, id: nat, s: StageType)
    requires Latest(rs, a.tenant, id, s) == None
    ensures Fresh(ex, rs + [NextResult(ex, rs, a, id, s)], |rs|)
  {
    var row := NextResult(ex, rs, a, id, s);
    var deps := ex.dependencies(a.hazard, s);
    NextExplained(ex, rs, a, id, s);
    assert (rs + [row])[..|rs|] == rs;
    if row.Completed() && deps != [] { CollectStable(rs, row, a.tenant, id, deps); }
  }

  lemma OldRowFresh(ex: Executors, rs: seq<StageResult>, row: StageResult, k: nat)
    requires k < |rs| && Fresh(ex, rs, k) && Latest(rs, row.tenant, row.assessment, row.stage) == None
    ensures Fresh(ex, rs + [row], k)
    ensures rs[k].Completed() && ex.dependencies(rs[k].hazard, rs[k].stage) != [] ==>
      CollectFor(ex, rs + [row], rs[k]) == CollectFor(ex, rs, rs[k])
  {
    assert (rs + [row])[..k] == rs[..k];
    if rs[k].Completed() && ex.dependencies(rs[k].hazard, rs[k].stage) != [] {
      CollectStable(rs, row, rs[k].tenant, rs[k].assessment, ex.dependencies(rs[k].hazard, rs[k].stage));
    }
  }

  lemma AppendKeepsFresh(ex: Executors, rs: seq<StageResult>, a: AssessmentState, id: nat, s: StageType)
    requires AllFresh(ex, rs) && Latest(rs, a.tenant, id, s) == None
    ensures var rs' := rs + [NextResult(ex, rs, a, id, s)];
      AllFresh(ex, rs') && Preserves(ex, rs, rs')
  {
    var row := NextResult(ex, rs, a, id, s);
    NewRowFresh(ex, rs, a, id, s);
    forall k | 0 <= k < |rs|
      ensures Fresh(ex, rs + [row], k)
      ensures rs[k].Completed() && ex.dependencies(rs[k].hazard, rs[k].stage) != [] ==>
        CollectFor(ex, rs + [row], rs[k]) == CollectFor(ex, rs, rs[k])
    {
      OldRowFresh(ex, rs, row, k);
    }
  }

  // ---- One attempt ----

  /** What an attempt does to the ledger: nothing for a stage outside the analysis pipeline, one
      new row otherwise, COMPLETE exactly when the stage completed and then named by its entry. */
  lemma AttemptLedger(ex: Executors, w: World, tenant: nat, id: nat, s: StageType, actor: string)
    requires Attemptable(w, tenant, id, s)
    ensures var (r, success) := Attempt(ex, w, tenant, id, s, actor);
      var row := NextResult(ex, w.results, w.assessments[id].state, id, s);
      && (s !in ex.analysis ==> r.world.results == w.results)
      && (s in ex.analysis ==>
            && r.world.results == w.results + [row] && row.Completed() == success
            && (success ==> ProgressOf(r.world, id).Get(s).resultRef == Some(ResultRow(|w.results|))))
  {
    StartEffect(w, tenant, id, s, actor);
    var started := Issue(w, tenant, id, StartStage(s, actor)).value;
    var (ran, outcome) := RunExecutor(ex, started, id, s);
    assert ran.assessments == started.assessments;
    var a, a' := w.assessments[id].state, started.assessments[id].state;
    assert NextResult(ex, w.results, a', id, s) == NextResult(ex, w.results, a, id, s);
    CompleteEffect(ran, tenant, id, s, outcome.ref, actor);
    FailEffect(ran, tenant, id, s, ErrorText(outcome.error), actor);
  }

  lemma OwnLedger(rs: seq<StageResult>, row: StageResult, tenant: nat, id: nat, e: StageEntry, e': StageEntry)
    requires LedgerMatches(rs, tenant, id, e) && e.status != StageStatus.Complete
    requires row.Of(tenant, id, e.stageType) && row.version == MaxVersion(rs, tenant, id, e.stageType) + 1
    requires e'.stageType == e.stageType && e'.attempts == e.attempts + 1
    requires e'.status == (if row.Completed() then StageStatus.Complete else StageStatus.Failed)
    requires row.Completed() ==> e'.resultRef == Some(ResultRow(|rs|))
    ensures LedgerMatches(rs + [row], tenant, id, e')
  {
    var s := e.stageType;
    RowAppended(rs, row, tenant, id, s);
    MaxVersionIsCount(rs, tenant, id, s);
    RowsExtended(RowsFor(rs, tenant, id, s), row, e'.status == StageStatus.Complete);
    assert RowsFor(rs + [row], tenant, id, s) == RowsFor(rs, tenant, id, s) + [row];
  }

  /** A next version on top of versions none of which is COMPLETE. */
  lemma RowsExtended(rows: seq<StageResult>, row: StageResult, complete: bool)
    requires Versioned(rows) && row.version == |rows| + 1 && row.Completed() == complete
    requires forall i :: 0 <= i < |rows| ==> !rows[i].Completed()
    ensures var more := rows + [row];
      && Versioned(more) && (forall i :: 0 <= i < |more| - 1 ==> !more[i].Completed())
      && (more[|more| - 1].Completed() <==> complete)
  {}

  lemma OtherLedger(rs: seq<StageResult>, row: StageResult, tenant: nat, id: nat, e: StageEntry)
    requires LedgerMatches(rs, tenant, id, e) && !row.Of(tenant, id, e.stageType)
    ensures LedgerMatches(rs + [row], tenant, id, e)
  {
    RowAppended(rs, row, tenant, id, e.stageType);
  }

  lemma AttemptKeepsEntry(ex: Executors, w: World, tenant: nat, id: nat, s: StageType, actor: string, k: nat, t: StageType)
    requires Attemptable(w, tenant, id, s) && LedgerSound(ex, w) && k < |w.assessments| && t in ex.analysis
    ensures var w' := Attempt(ex, w, tenant, id, s, actor).0.world;
      |w'.assessments| == |w.assessments|
      && LedgerMatches(w'.results, w'.assessments[k].state.tenant, k, ProgressOf(w', k).Get(t))
  {
    AttemptEffect(ex, w, tenant, id, s, actor);
    AttemptLedger(ex, w, tenant, id, s, actor);
    var (r, success) := Attempt(ex, w, tenant, id, s, actor);
    var a := w.assessments[id].state;
    assert LedgerMatches(w.results, w.assessments[k].state.tenant, k, ProgressOf(w, k).Get(t));
    if k == id && t == s {
      OwnLedger(w.results, NextResult(ex, w.results, a, id, s), a.tenant, id, ProgressOf(w, id).Get(s), ProgressOf(r.world, id).Get(s));
    } else if s in ex.analysis {
      OtherLedger(w.results, NextResult(ex, w.results, a, id, s), w.assessments[k].state.tenant, k, ProgressOf(w, k).Get(t));
    }
  }

  lemma AttemptKeepsPlaced(ex: Executors, w: World, tenant: nat, id: nat, s: StageType, actor: string)
    requires Attemptable(w, tenant, id, s) && LedgerSound(ex, w)
    ensures var w' := Attempt(ex, w, tenant, id, s, actor).0.world;
      forall k :: 0 <= k < |w'.results| ==> Placed(ex, w', w'.results[k])
  {
    AttemptEffect(ex, w, tenant, id, s, actor);
    AttemptLedger(ex, w, tenant, id, s, actor);
    PlacedKept(ex, w, Attempt(ex, w, tenant, id, s, actor).0.world, NextResult(ex, w.results, w.assessments[id].state, id, s));
  }

  predicate SameOwners(w: World, w': World) {
    && |w'.assessments| == |w.assessments|
    && forall k :: 0 <= k < |w.assessments| ==>
         && w'.assessments[k].state.tenant == w.assessments[k].state.tenant
         && w'.assessments[k].state.hazard == w.assessments[k].state.hazard
  }

  lemma PlacedKept(ex: Executors, w: World, w': World, row: StageResult)
    requires SameOwners(w, w') && (w'.results == w.results || (w'.results == w.results + [row] && Placed(ex, w, row)))
    requires forall k :: 0 <= k < |w.results| ==> Placed(ex, w, w.results[k])
    ensures forall k :: 0 <= k < |w'.results| ==> Placed(ex, w', w'.results[k])
  {
    forall k | 0 <= k < |w'.results| ensures Placed(ex, w', w'.results[k]) {
      if k < |w.results| { assert Placed(ex, w, w.results[k]); }
    }
  }

  /** Every attempt keeps the ledger matching the workflow, and all evidence fresh. */
  lemma {:induction false} AttemptKeepsLedger(ex: Executors, w: World, tenant: nat, id: nat, s: StageType, actor: string)
    requires Attemptable(w, tenant, id, s) && LedgerSound(ex, w) && AllFresh(ex, w.results)
    ensures var w' := Attempt(ex, w, tenant, id, s, actor).0.world;
      LedgerSound(ex, w') && AllFresh(ex, w'.results) && Preserves(ex, w.results, w'.results)
  {
    var w' := Attempt(ex, w, tenant, id, s, actor).0.world;
    AttemptLedger(ex, w, tenant, id, s, actor);
    if s in ex.analysis {
      assert LedgerMatches(w.results, w.assessments[id].state.tenant, id, ProgressOf(w, id).Get(s));
      AppendKeepsFresh(ex, w.results, w.assessments[id].state, id, s);
    }
    AttemptKeepsPlaced(ex, w, tenant, id, s, actor);
    forall k, t | 0 <= k < |w'.assessments| && t in ex.analysis
      ensures LedgerMatches(w'.results, w'.assessments[k].state.tenant, k, ProgressOf(w', k).Get(t))
    {
      AttemptEffect(ex, w, tenant, id, s, actor);
      AttemptKeepsEntry(ex, w, tenant, id, s, actor, k, t);
    }
  }
}
