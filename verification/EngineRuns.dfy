/** What every run of the engine is made of: attempts that were legal when they were made,
    and at most one final advance. */
module EngineRuns {
  import opened Results
  import opened Stages
  import opened Templates
  import opened Assessments
  import opened Platform
  import opened Engine

  predicate Bound(w: World, tenant: nat, id: nat, sds: seq<StageDefinition>) {
    Visible(w, tenant, id) && BoundStages(w, id) == Some(sds)
  }

  predicate Active(w: World, tenant: nat, id: nat, sds: seq<StageDefinition>) {
    Bound(w, tenant, id, sds) && w.assessments[id].state.status == Lifecycle.Running
  }

  /** Still running, or validated with every stage complete. */
  predicate Live(w: World, tenant: nat, id: nat, sds: seq<StageDefinition>) {
    && Bound(w, tenant, id, sds)
    && (w.assessments[id].state.status == Lifecycle.Running
        || (w.assessments[id].state.status == Validated && ProgressOf(w, id).AllComplete(Types(sds))))
  }

  /** Some automatic definition of the stage has all its predecessors COMPLETE. */
  predicate Eligible(sds: seq<StageDefinition>, p: WorkflowProgress, s: StageType) {
    exists sd <- sds :: sd.stageType == s && sd.trigger == Automatic && p.AllComplete(sd.predecessors)
  }

  /** Some definition of the stage, automatic or manual, has all its predecessors COMPLETE. */
  predicate PredecessorsMet(sds: seq<StageDefinition>, p: WorkflowProgress, s: StageType) {
    exists sd <- sds :: sd.stageType == s && p.AllComplete(sd.predecessors)
  }

  /** The stages the engine may attempt: eligible ones, and those a user triggered. */
  predicate Permitted(sds: seq<StageDefinition>, manual: set<StageType>, p: WorkflowProgress, s: StageType) {
    s in manual || Eligible(sds, p, s)
  }

  /** An attempt of a permitted stage, by the engine itself unless a user triggered the stage. */
  predicate LegalAttempt(ex: Executors, w: World, w': World, tenant: nat, id: nat, sds: seq<StageDefinition>,
                         manual: set<StageType>, s: StageType, actor: string)
  {
    && Active(w, tenant, id, sds)
    && Attemptable(w, tenant, id, s) && Permitted(sds, manual, ProgressOf(w, id), s)
    && (actor == SYSTEM_ACTOR || s in manual)
    && w' == Attempt(ex, w, tenant, id, s, actor).0.world
  }

  predicate LegalAdvance(w: World, w': World, tenant: nat, id: nat, sds: seq<StageDefinition>) {
    && Active(w, tenant, id, sds)
    && ProgressOf(w, id).AllComplete(Types(sds))
    && IssueAdvance(w, tenant, id, SYSTEM_ACTOR) == Ok(w')
  }

  ghost predicate EngineStep(ex: Executors, w: World, w': World, tenant: nat, id: nat,
                             sds: seq<StageDefinition>, manual: set<StageType>)
  {
    || LegalAdvance(w, w', tenant, id, sds)
    || exists s, actor :: LegalAttempt(ex, w, w', tenant, id, sds, manual, s, actor)
  }

  ghost predicate Path(ex: Executors, tenant: nat, id: nat, sds: seq<StageDefinition>,
                       manual: set<StageType>, ws: seq<World>)
  {
    && ws != []
    && forall i :: 0 <= i < |ws| - 1 ==> EngineStep(ex, ws[i], ws[i + 1], tenant, id, sds, manual)
  }

  ghost predicate Leads(ex: Executors, tenant: nat, id: nat, sds: seq<StageDefinition>, manual: set<StageType>,
                        ws: seq<World>, w: World, w': World)
  {
    Path(ex, tenant, id, sds, manual, ws) && ws[0] == w && ws[|ws| - 1] == w'
  }

  lemma LastStep(ex: Executors, tenant: nat, id: nat, sds: seq<StageDefinition>, manual: set<StageType>, ws: seq<World>)
    requires Path(ex, tenant, id, sds, manual, ws) && |ws| > 1
    ensures var front := ws[..|ws| - 1];
      && Path(ex, tenant, id, sds, manual, front) && front[0] == ws[0] && front[|front| - 1] == ws[|ws| - 2]
      && EngineStep(ex, ws[|ws| - 2], ws[|ws| - 1], tenant, id, sds, manual)
  {
    var k := |ws| - 2;
    assert EngineStep(ex, ws[k], ws[k + 1], tenant, id, sds, manual);
    forall i | 0 <= i < k ensures EngineStep(ex, ws[i], ws[i + 1], tenant, id, sds, manual) {}
  }

  lemma Prepended(ex: Executors, tenant: nat, id: nat, sds: seq<StageDefinition>, manual: set<StageType>,
                  w: World, ws: seq<World>, mid: World, w': World)
    requires EngineStep(ex, w, mid, tenant, id, sds, manual) && Leads(ex, tenant, id, sds, manual, ws, mid, w')
    ensures Leads(ex, tenant, id, sds, manual, [w] + ws, w, w')
  {}

  lemma Joined(ex: Executors, tenant: nat, id: nat, sds: seq<StageDefinition>, manual: set<StageType>,
               ws: seq<World>, vs: seq<World>, w: World, mid: World, w': World)
    requires Leads(ex, tenant, id, sds, manual, ws, w, mid) && Leads(ex, tenant, id, sds, manual, vs, mid, w')
    ensures Leads(ex, tenant, id, sds, manual, ws + vs[1..], w, w')
  {
    var all := ws + vs[1..];
    forall i | 0 <= i < |all| - 1 ensures EngineStep(ex, all[i], all[i + 1], tenant, id, sds, manual) {
      if i >= |ws| - 1 {
        var k := i - (|ws| - 1);
        assert all[i] == vs[k] && all[i + 1] == vs[k + 1];
      }
    }
  }

  /** An attempt keeps the workflow active, and either completes one more stage or spends a retry. */
  lemma AttemptProgresses(ex: Executors, w: World, tenant: nat, id: nat, sds: seq<StageDefinition>, s: StageType, actor: string)
    requires Active(w, tenant, id, sds) && Attemptable(w, tenant, id, s)
    ensures var (r, success) := Attempt(ex, w, tenant, id, s, actor);
      && r.error == None && Active(r.world, tenant, id, sds)
      && ProgressOf(w, id).Completed() <= ProgressOf(r.world, id).Completed()
      && (success ==> ProgressOf(r.world, id).Status(s) == StageStatus.Complete
                      && Remaining(r.world, id) < Remaining(w, id))
      && (!success ==> ProgressOf(r.world, id).Status(s) == StageStatus.Failed
                       && ProgressOf(r.world, id).Completed() == ProgressOf(w, id).Completed()
                       && (RetriesLeft(r.world, id, s) > 0 ==> RetriesLeft(w, id, s) == RetriesLeft(r.world, id, s) + 1))
  {
    AttemptEffect(ex, w, tenant, id, s, actor);
    AttemptSpends(ex, w, tenant, id, s, actor);
  }

  lemma FirstStep(ex: Executors, w: World, tenant: nat, id: nat, s: StageType, actor: string,
                  sds: seq<StageDefinition>, manual: set<StageType>)
    requires Active(w, tenant, id, sds) && Attemptable(w, tenant, id, s) && Permitted(sds, manual, ProgressOf(w, id), s)
    requires actor == SYSTEM_ACTOR || s in manual
    ensures EngineStep(ex, w, Attempt(ex, w, tenant, id, s, actor).0.world, tenant, id, sds, manual)
  {
    var w' := Attempt(ex, w, tenant, id, s, actor).0.world;
    assert LegalAttempt(ex, w, w', tenant, id, sds, manual, s, actor);
  }

  lemma AdvanceEffect(ex: Executors, w: World, tenant: nat, id: nat, sds: seq<StageDefinition>)
    requires Active(w, tenant, id, sds) && ProgressOf(w, id).AllComplete(Types(sds))
    ensures var r := OnCompleted(ex, w, tenant, id);
      && r.error == None && LegalAdvance(w, r.world, tenant, id, sds)
      && Bound(r.world, tenant, id, sds) && r.world.assessments[id].state.status == Validated
      && ProgressOf(r.world, id) == ProgressOf(w, id)
  {}

  lemma EligibleGrows(sds: seq<StageDefinition>, p: WorkflowProgress, p': WorkflowProgress, s: StageType)
    requires p.Completed() <= p'.Completed() && Eligible(sds, p, s)
    ensures Eligible(sds, p', s)
  {
    var sd :| sd in sds && sd.stageType == s && sd.trigger == Automatic && p.AllComplete(sd.predecessors);
    forall q <- sd.predecessors ensures p'.Status(q) == StageStatus.Complete { assert q in p.Completed(); }
  }

  // ---- Every run is a path, and raises nothing after its first command ----

  lemma {:induction false} ExecutePath(ex: Executors, w: World, tenant: nat, id: nat, s: StageType, actor: string,
                                       sds: seq<StageDefinition>, manual: set<StageType>) returns (ws: seq<World>)
    requires Active(w, tenant, id, sds) && Attemptable(w, tenant, id, s) && Permitted(sds, manual, ProgressOf(w, id), s)
    requires actor == SYSTEM_ACTOR || s in manual
    ensures var r := Execute(ex, w, tenant, id, s, actor);
      && Leads(ex, tenant, id, sds, manual, ws, w, r.world)
      && r.error == None && Live(r.world, tenant, id, sds)
    decreases Remaining(w, id), 0, 2 * RetriesLeft(w, id, s) + 1, 0
  {
    AttemptProgresses(ex, w, tenant, id, sds, s, actor);
    var (r, success) := Attempt(ex, w, tenant, id, s, actor);
    var w' := r.world;
    FirstStep(ex, w, tenant, id, s, actor, sds, manual);
    var rest;
    if success {
      rest := CompletedPath(ex, w', tenant, id, sds, manual);
    } else {
      if s !in manual { EligibleGrows(sds, ProgressOf(w, id), ProgressOf(w', id), s); }
      rest := FailedPath(ex, w', tenant, id, s, sds, manual);
    }
    Prepended(ex, tenant, id, sds, manual, w, rest, w', Execute(ex, w, tenant, id, s, actor).world);
    ws := [w] + rest;
  }

  lemma {:induction false} CompletedPath(ex: Executors, w: World, tenant: nat, id: nat,
                                         sds: seq<StageDefinition>, manual: set<StageType>) returns (ws: seq<World>)
    requires Active(w, tenant, id, sds)
    ensures var r := OnCompleted(ex, w, tenant, id);
      && Leads(ex, tenant, id, sds, manual, ws, w, r.world)
      && r.error == None && Live(r.world, tenant, id, sds)
    decreases Remaining(w, id), 3, 0, 0
  {
    if ProgressOf(w, id).AllComplete(Types(sds)) {
      AdvanceEffect(ex, w, tenant, id, sds);
      ws := [w, OnCompleted(ex, w, tenant, id).world];
    } else {
      ws := DispatchPath(ex, w, tenant, id, sds, manual);
    }
  }

  lemma {:induction false} FailedPath(ex: Executors, w: World, tenant: nat, id: nat, s: StageType,
                                      sds: seq<StageDefinition>, manual: set<StageType>) returns (ws: seq<World>)
    requires Active(w, tenant, id, sds) && Attemptable(w, tenant, id, s) && Permitted(sds, manual, ProgressOf(w, id), s)
    ensures var r := OnFailed(ex, w, tenant, id, s);
      && Leads(ex, tenant, id, sds, manual, ws, w, r.world)
      && r.error == None && Live(r.world, tenant, id, sds)
    decreases Remaining(w, id), 0, if RetriesLeft(w, id, s) > 0 then 2 * RetriesLeft(w, id, s) + 2 else 0, 0
  {
    if RetriesLeft(w, id, s) > 0 {
      ws := ExecutePath(ex, w, tenant, id, s, SYSTEM_ACTOR, sds, manual);
    } else {
      ws := [w];
    }
  }

  lemma {:induction false} DispatchPath(ex: Executors, w: World, tenant: nat, id: nat,
                                        sds: seq<StageDefinition>, manual: set<StageType>) returns (ws: seq<World>)
    requires Active(w, tenant, id, sds)
    ensures var r := Dispatch(ex, w, tenant, id);
      && Leads(ex, tenant, id, sds, manual, ws, w, r.world)
      && r.error == None && Live(r.world, tenant, id, sds)
    decreases Remaining(w, id), 2, 0, 0
  {
    var list := AutomaticOf(RunnableStages(sds, ProgressOf(w, id)));
    forall sd <- list ensures Listed(sds, manual, ProgressOf(w, id), sd) {
      assert sd in sds && Runnable(sd, ProgressOf(w, id));
    }
    ws := EachPath(ex, w, tenant, id, list, sds, manual);
  }

  /** A listed stage stays permitted while the loop runs, however old the list is. */
  predicate Listed(sds: seq<StageDefinition>, manual: set<StageType>, p: WorkflowProgress, sd: StageDefinition) {
    sd.stageType in Types(sds) && Permitted(sds, manual, p, sd.stageType)
  }

  lemma {:induction false} EachPath(ex: Executors, w: World, tenant: nat, id: nat, rest: seq<StageDefinition>,
                                    sds: seq<StageDefinition>, manual: set<StageType>) returns (ws: seq<World>)
    requires Live(w, tenant, id, sds)
    requires forall sd <- rest :: Listed(sds, manual, ProgressOf(w, id), sd)
    ensures var r := DispatchEach(ex, w, tenant, id, rest);
      && Leads(ex, tenant, id, sds, manual, ws, w, r.world)
      && r.error == None && Live(r.world, tenant, id, sds)
    decreases Remaining(w, id), 1, |rest|, 0
  {
    if rest == [] {
      ws := [w];
    } else {
      var s := rest[0].stageType;
      assert Listed(sds, manual, ProgressOf(w, id), rest[0]);
      if !Startable(ProgressOf(w, id).Status(s)) {
        ws := EachPath(ex, w, tenant, id, rest[1..], sds, manual);
      } else {
        var first := ExecutePath(ex, w, tenant, id, s, SYSTEM_ACTOR, sds, manual);
        var w' := Execute(ex, w, tenant, id, s, SYSTEM_ACTOR).world;
        FewerRemain(w, w', id);
        forall sd | sd in rest[1..] ensures Listed(sds, manual, ProgressOf(w', id), sd) {
          assert Listed(sds, manual, ProgressOf(w, id), sd);
          if sd.stageType !in manual { EligibleGrows(sds, ProgressOf(w, id), ProgressOf(w', id), sd.stageType); }
        }
        var second := EachPath(ex, w', tenant, id, rest[1..], sds, manual);
        Joined(ex, tenant, id, sds, manual, first, second, w, w', DispatchEach(ex, w, tenant, id, rest).world);
        ws := first + second[1..];
      }
    }
  }
}
