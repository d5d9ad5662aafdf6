/** The state a started workflow comes to rest in. */
module WorkflowGuarantees {
  import opened Results
  import opened Stages
  import opened Templates
  import opened Assessments
  import opened Replay
  import opened Platform
  import opened OutboxLog
  import opened Interleavings
  import opened Engine
  import opened EngineRuns
  import opened EngineTheorems
  import opened AttemptBounds
  import opened Requests

  // ---- Any executor ----

  /** No stage runs and no automatic stage waits: each one whose predecessors are COMPLETE is COMPLETE
      itself or FAILED with its budget spent. */
  predicate AtRest(sds: seq<StageDefinition>, p: WorkflowProgress) {
    && (forall s :: p.Status(s) != StageStatus.Running)
    && (forall sd <- sds :: sd.trigger == Automatic && p.AllComplete(sd.predecessors) ==>
          || p.Status(sd.stageType) == StageStatus.Complete
          || (p.Status(sd.stageType) == StageStatus.Failed
              && Spent(sds, p.Get(sd.stageType))))
  }

  predicate StatusIs(w: World, id: nat, status: Lifecycle) {
    id < |w.assessments| && w.assessments[id].state.status == status
  }

  /** A dispatch on an untouched workflow. */
  lemma FreshDispatch(ex: Executors, w: World, tenant: nat, id: nat, sds: seq<StageDefinition>)
    requires Active(w, tenant, id, sds) && forall s :: ProgressOf(w, id).Get(s) == FreshEntry(s)
    ensures var r := Dispatch(ex, w, tenant, id);
      && r.error == None && Live(r.world, tenant, id, sds) && OnlyProgress(w, r.world, id)
      && Evolves(sds, {}, ProgressOf(w, id), ProgressOf(r.world, id))
      && ProgressOf(r.world, id).Completed() <= AutomaticClosure(sds)
  {
    var ws := DispatchPath(ex, w, tenant, id, sds, {});
    PathEvolves(ex, tenant, id, sds, {}, ws);
    ClosureIsLeast(sds);
    assert ProgressOf(w, id).Completed() + {} == {};
  }

  lemma FreshDispatchRests(ex: Executors, w: World, tenant: nat, id: nat, sds: seq<StageDefinition>)
    requires Active(w, tenant, id, sds) && sds != [] && forall s :: ProgressOf(w, id).Get(s) == FreshEntry(s)
    ensures var w' := Dispatch(ex, w, tenant, id).world;
      && AtRest(sds, ProgressOf(w', id))
      && StatusIs(w', id, if ProgressOf(w', id).AllComplete(Types(sds)) then Validated else Lifecycle.Running)
  {
    assert sds[0].stageType in Types(sds) && ProgressOf(w, id).Get(sds[0].stageType) == FreshEntry(sds[0].stageType);
    FreshDispatch(ex, w, tenant, id, sds);
    DispatchSettles(ex, w, tenant, id, sds);
    var p := ProgressOf(Dispatch(ex, w, tenant, id).world, id);
    forall s ensures p.Status(s) != StageStatus.Running {
      assert StageEvolves(sds, {}, ProgressOf(w, id), p, s);
    }
    forall sd <- sds | sd.trigger == Automatic && p.AllComplete(sd.predecessors)
      ensures Finished(sds, p.Get(sd.stageType))
    {
      assert Eligible(sds, p, sd.stageType);
    }
  }

  /** A start-workflow call that is accepted raises nothing afterwards, whatever the executor does. It
      comes to rest; only stages that are automatic with COMPLETE predecessors were ever touched; and
      the assessment is VALIDATED exactly when all stages are COMPLETE. Other assessments stay as they were. */
  lemma {:induction false} StartedWorkflowSettles(ex: Executors, w: World, tenant: nat, id: nat, template: nat, actor: string)
    requires IssueStartWorkflow(w, tenant, id, template, actor).Ok? && w.templates[template].stages != []
    ensures var r := StartAll(ex, w, tenant, id, template, actor);
      var sds := w.templates[template].stages;
      var p := ProgressOf(r.world, id);
      && r.error == None
      && AtRest(sds, p)
      && (forall s :: p.Get(s) != FreshEntry(s) ==> Eligible(sds, p, s) && s in AutomaticClosure(sds))
      && StatusIs(r.world, id, if p.AllComplete(Types(sds)) then Validated else Lifecycle.Running)
      && |r.world.assessments| == |w.assessments|
      && (forall k :: 0 <= k < |w.assessments| && k != id ==> r.world.assessments[k] == w.assessments[k])
  {
    var sds := w.templates[template].stages;
    var started := IssueStartWorkflow(w, tenant, id, template, actor).value;
    StartedActive(w, tenant, id, template, actor);
    FreshDispatch(ex, started, tenant, id, sds);
    FreshDispatchRests(ex, started, tenant, id, sds);
    var p := ProgressOf(Dispatch(ex, started, tenant, id).world, id);
    forall s | p.Get(s) != FreshEntry(s) ensures Eligible(sds, p, s) && s in AutomaticClosure(sds) {
      assert StageEvolves(sds, {}, ProgressOf(started, id), p, s);
      EligibleInClosure(sds, p, s);
    }
  }

  lemma EligibleInClosure(sds: seq<StageDefinition>, p: WorkflowProgress, s: StageType)
    requires Eligible(sds, p, s) && p.Completed() <= AutomaticClosure(sds)
    ensures s in AutomaticClosure(sds)
  {
    ClosureIsLeast(sds);
    var sd :| sd in sds && sd.stageType == s && sd.trigger == Automatic && p.AllComplete(sd.predecessors);
    assert sd.predecessors <= p.Completed();
  }

  /** With distinct stage types no stage is attempted more often than its budget plus once for each
      other stage; a stage outside the template is never attempted. */
  lemma {:induction false} AttemptsBounded(ex: Executors, w: World, tenant: nat, id: nat, template: nat, actor: string, s: StageType)
    requires IssueStartWorkflow(w, tenant, id, template, actor).Ok?
    requires DistinctTypes(w.templates[template].stages)
    requires forall sd <- w.templates[template].stages :: sd.Valid()
    ensures var sds := w.templates[template].stages;
      var attempts := ProgressOf(StartAll(ex, w, tenant, id, template, actor).world, id).Get(s).attempts;
      (forall sd <- sds :: sd.stageType == s ==> attempts <= sd.maxAttempts + |sds| - 1)
      && (s !in Types(sds) ==> attempts == 0)
  {
    forall sd <- w.templates[template].stages | sd.stageType == s
      ensures MaxAttempts(Some(w.templates[template].stages), s) == sd.maxAttempts
    {
      OwnDefinition(w.templates[template].stages, sd);
    }
    StartedActive(w, tenant, id, template, actor);
    FreshDispatchBounded(ex, IssueStartWorkflow(w, tenant, id, template, actor).value, tenant, id,
                         w.templates[template].stages, s);
  }

  lemma FreshDispatchBounded(ex: Executors, w: World, tenant: nat, id: nat, sds: seq<StageDefinition>, s: StageType)
    requires Active(w, tenant, id, sds) && forall t :: ProgressOf(w, id).Get(t) == FreshEntry(t)
    requires DistinctTypes(sds) && forall sd <- sds :: sd.Valid()
    ensures var attempts := ProgressOf(Dispatch(ex, w, tenant, id).world, id).Get(s).attempts;
      if s in Types(sds) then attempts <= MaxAttempts(Some(sds), s) + |sds| - 1 else attempts == 0
  {
    FreshDispatch(ex, w, tenant, id, sds);
    var p0, p := ProgressOf(w, id), ProgressOf(Dispatch(ex, w, tenant, id).world, id);
    if s in Types(sds) {
      DispatchExcess(ex, w, tenant, id, sds, s);
      ExcessBounds(sds, p0, p, s);
    } else {
      assert StageEvolves(sds, {}, p0, p, s);
    }
  }

  lemma ExcessBounds(sds: seq<StageDefinition>, p0: WorkflowProgress, p: WorkflowProgress, s: StageType)
    requires DistinctTypes(sds) && s in Types(sds) && forall sd <- sds :: sd.Valid()
    requires Evolves(sds, {}, p0, p) && forall t :: p0.Get(t) == FreshEntry(t)
    requires Excess(sds, p, s) <= Excess(sds, p0, s) + 1
    ensures p.Get(s).attempts <= MaxAttempts(Some(sds), s) + |sds| - 1
  {
    assert p0.Completed() == {};
    OthersCompleted(sds, p0, p, s);
    assert MaxAttempts(Some(sds), s) >= 1;
  }

  lemma OthersCompleted(sds: seq<StageDefinition>, p0: WorkflowProgress, p: WorkflowProgress, s: StageType)
    requires DistinctTypes(sds) && s in Types(sds) && p0.Completed() == {}
    requires Evolves(sds, {}, p0, p)
    ensures |p.Completed() - {s}| <= |sds| - 1
  {
    forall t <- p.Completed() ensures t in Types(sds) {
      assert StageEvolves(sds, {}, p0, p, t) && t !in p0.Completed();
    }
    Subset(p.Completed() - {s}, Types(sds) - {s});
    DistinctCount(sds);
  }

  // ---- Runs without a failure ----

  /** No failure of any stage is logged. */
  ghost predicate NoFailures(w: World, id: nat) {
    forall s :: Count(HistoryOf(w.outbox, AssessmentId(id)), FailureOf(s)) == 0
  }

  /** The entries a started workflow comes to rest with, against its log. */
  lemma StartedBalance(ex: Executors, w: World, tenant: nat, id: nat, template: nat, actor: string)
    requires IssueStartWorkflow(w, tenant, id, template, actor).Ok? && Consistent(w)
    ensures var w' := StartAll(ex, w, tenant, id, template, actor).world;
      var p := ProgressOf(w', id);
      && Consistent(w') && id < |w'.assessments|
      && (forall s :: StageBalance(HistoryOf(w'.outbox, AssessmentId(id)), p.Get(s)))
      && (forall s :: p.Status(s) != StageStatus.Running && Moves(FreshEntry(s), p.Get(s)))
  {
    var sds := w.templates[template].stages;
    var started := IssueStartWorkflow(w, tenant, id, template, actor).value;
    StartedActive(w, tenant, id, template, actor);
    IssueActs(w, tenant, id, StartWorkflow(template, Types(sds), actor));
    var ws := DispatchPath(ex, started, tenant, id, sds, {});
    PathActs(ex, tenant, id, sds, {}, ws);
    PathGrows(ex, tenant, id, sds, {}, ws);
    var w' := Dispatch(ex, started, tenant, id).world;
    DispatchGrows(ex, started, tenant, id, sds);
    forall s ensures ProgressOf(w', id).Status(s) != StageStatus.Running && Moves(FreshEntry(s), ProgressOf(w', id).Get(s)) {
      assert Moves(ProgressOf(started, id).Get(s), ProgressOf(w', id).Get(s));
    }
    assert Faithful(HistoryOf(w'.outbox, AssessmentId(id)), w'.assessments[id].state);
  }

  /** Never attempted, or completed at the first attempt. */
  predicate CompletedOnce(e: StageEntry) {
    e == FreshEntry(e.stageType) || (e.status == StageStatus.Complete && e.attempts == 1)
  }

  lemma NoFailureIff(h: History, e: StageEntry)
    requires StageBalance(h, e) && e.status != StageStatus.Running && Moves(FreshEntry(e.stageType), e)
    ensures Count(h, FailureOf(e.stageType)) == 0 <==> CompletedOnce(e)
  {}

  /** Without failures the COMPLETE stages are exactly the least set closed under "automatic with COMPLETE
      predecessors"; each was attempted once and every other stage never; and the assessment is VALIDATED
      exactly when that set is the whole template. With a failure the attempts are others. */
  lemma {:induction false} SuccessReachesClosure(ex: Executors, w: World, tenant: nat, id: nat, template: nat, actor: string)
    requires IssueStartWorkflow(w, tenant, id, template, actor).Ok? && w.templates[template].stages != []
    requires Consistent(w)
    ensures var w' := StartAll(ex, w, tenant, id, template, actor).world;
      var closure := AutomaticClosure(w.templates[template].stages);
      NoFailures(w', id) <==> OnceEach(ProgressOf(w', id), closure)
    ensures var w' := StartAll(ex, w, tenant, id, template, actor).world;
      var sds := w.templates[template].stages;
      NoFailures(w', id) ==> (StatusIs(w', id, Validated) <==> AutomaticClosure(sds) == Types(sds))
  {
    var sds := w.templates[template].stages;
    var w' := StartAll(ex, w, tenant, id, template, actor).world;
    var h, p := HistoryOf(w'.outbox, AssessmentId(id)), ProgressOf(w', id);
    StartedWorkflowSettles(ex, w, tenant, id, template, actor);
    StartedBalance(ex, w, tenant, id, template, actor);
    forall s ensures Count(h, FailureOf(s)) == 0 <==> CompletedOnce(p.Get(s)) { NoFailureIff(h, p.Get(s)); }
    if NoFailures(w', id) { RestIsClosure(sds, p); }
    if OnceEach(p, AutomaticClosure(sds)) {
      forall s ensures CompletedOnce(p.Get(s)) { assert Moves(FreshEntry(s), p.Get(s)); }
    }
  }

  /** The stages of the set are COMPLETE after one attempt; the others are not and were never attempted. */
  predicate OnceEach(p: WorkflowProgress, stages: set<StageType>) {
    p.Completed() == stages && forall s :: p.Get(s).attempts == if s in stages then 1 else 0
  }

  /** At rest, with each touched stage completed at once and in the closure, the COMPLETE stages are the closure. */
  lemma RestIsClosure(sds: seq<StageDefinition>, p: WorkflowProgress)
    requires AtRest(sds, p) && forall s :: CompletedOnce(p.Get(s))
    requires forall s :: p.Get(s) != FreshEntry(s) ==> s in AutomaticClosure(sds)
    ensures OnceEach(p, AutomaticClosure(sds))
    ensures p.AllComplete(Types(sds)) <==> AutomaticClosure(sds) == Types(sds)
  {
    forall sd <- sds | sd.trigger == Automatic && sd.predecessors <= p.Completed()
      ensures sd.stageType in p.Completed()
    {
      assert p.AllComplete(sd.predecessors);
      assert CompletedOnce(p.Get(sd.stageType));
    }
    ClosureIsLeast(sds);
    assert ClosedSet(sds, p.Completed()) && ClosedSet(sds, Types(sds));
    forall s <- p.Completed() ensures s in AutomaticClosure(sds) { assert p.Get(s) != FreshEntry(s); }
    CompleteAll(p, Types(sds));
  }

  lemma CompleteAll(p: WorkflowProgress, stages: set<StageType>)
    ensures p.AllComplete(stages) <==> stages <= p.Completed()
  {
    forall s <- stages ensures p.Status(s) == StageStatus.Complete <==> s in p.Completed() {}
  }
}
