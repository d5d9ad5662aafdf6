/** The attempt bound is attained by every template of independent automatic stages whose first
    stage keeps failing while the others succeed. */
module BoundAttained {
  import opened Results
  import opened Stages
  import opened Templates
  import opened Platform
  import opened Engine
  import opened EngineRuns
  import opened EngineTheorems
  import opened AttemptBounds
  import opened Replay
  import opened OutboxLog
  import opened Requests
  import opened WorkflowGuarantees

  // ---- Runs in which one stage always fails and the others never do ----

  predicate FirstTry(e: StageEntry) {
    e.attempts == if e.status == StageStatus.Complete then 1 else 0
  }

  /** Stage `f` did not complete, and no other stage failed. */
  predicate OnlyOneFails(p: WorkflowProgress, f: StageType) {
    p.Status(f) != StageStatus.Complete && forall s :: s != f ==> FirstTry(p.Get(s))
  }

  /** The same, read off the log of the run. */
  ghost predicate OnlyFailing(w: World, id: nat, f: StageType) {
    forall s :: Count(HistoryOf(w.outbox, AssessmentId(id)), if s == f then CompletionOf(s) else FailureOf(s)) == 0
  }

  lemma OnlyFailingIff(h: History, p: WorkflowProgress, f: StageType)
    requires forall s :: StageBalance(h, p.Get(s)) && p.Status(s) != StageStatus.Running
    ensures OnlyOneFails(p, f) <==> forall s :: Count(h, if s == f then CompletionOf(s) else FailureOf(s)) == 0
  {
    forall s ensures (if s == f then p.Status(f) != StageStatus.Complete else FirstTry(p.Get(s)))
                     <==> Count(h, if s == f then CompletionOf(s) else FailureOf(s)) == 0
    {
      assert StageBalance(h, p.Get(s));
    }
  }

  /** What held at the end of a run held all along. */
  lemma FailedBefore(p: WorkflowProgress, p': WorkflowProgress, f: StageType)
    requires Grows(p, p') && OnlyOneFails(p', f)
    ensures OnlyOneFails(p, f)
  {
    forall s | s != f ensures FirstTry(p.Get(s)) { assert Moves(p.Get(s), p'.Get(s)) && FirstTry(p'.Get(s)); }
  }

  lemma AttemptOutcome(ex: Executors, w: World, tenant: nat, id: nat, f: StageType, s: StageType, actor: string)
    requires Attemptable(w, tenant, id, s)
    requires OnlyOneFails(ProgressOf(Attempt(ex, w, tenant, id, s, actor).0.world, id), f)
    ensures Attempt(ex, w, tenant, id, s, actor).1 <==> s != f
  {
    AttemptEffect(ex, w, tenant, id, s, actor);
  }

  /** An executor for which stage `f` fails, and every other succeeds, on every existing assessment. */
  ghost predicate FailsOnly(ex: Executors, f: StageType) {
    forall w: World, id: nat, s :: id < |w.assessments| ==> (RunExecutor(ex, w, id, s).1.success <==> s != f)
  }

  /** Such executors exist, whichever stages run the analysis pipeline. */
  lemma FailsOnlyExists(f: StageType, analysis: set<StageType>) returns (ex: Executors)
    ensures ex.analysis == analysis && FailsOnly(ex, f)
  {
    ex := Executors(analysis, (_, _, s) => Outcome(s != f, None, None), _ => Some(""), (_, s) => if s != f then Some("") else None,
                    (_, _) => [], (_, _) => false,
                    (_, _, _) => Some(map[]), (_, _, _, _) => Some(map[]), _ => "");
    forall w: World, id: nat, s | id < |w.assessments| ensures RunExecutor(ex, w, id, s).1.success <==> s != f {
      if s in analysis { assert NextResult(ex, w.results, w.assessments[id].state, id, s).Completed() <==> s != f; }
    }
  }

  lemma {:induction false} PathFails(ex: Executors, tenant: nat, id: nat, sds: seq<StageDefinition>,
                                     manual: set<StageType>, ws: seq<World>, f: StageType)
    requires Path(ex, tenant, id, sds, manual, ws) && FailsOnly(ex, f) && OnlyOneFails(ProgressOf(ws[0], id), f)
    ensures OnlyOneFails(ProgressOf(ws[|ws| - 1], id), f)
  {
    if |ws| > 1 {
      var n := |ws| - 1;
      LastStep(ex, tenant, id, sds, manual, ws);
      PathFails(ex, tenant, id, sds, manual, ws[..n], f);
      StepFails(ex, ws[n - 1], ws[n], tenant, id, sds, manual, f);
    }
  }

  lemma StepFails(ex: Executors, w: World, w': World, tenant: nat, id: nat, sds: seq<StageDefinition>,
                  manual: set<StageType>, f: StageType)
    requires EngineStep(ex, w, w', tenant, id, sds, manual) && FailsOnly(ex, f) && OnlyOneFails(ProgressOf(w, id), f)
    ensures OnlyOneFails(ProgressOf(w', id), f)
  {
    if !LegalAdvance(w, w', tenant, id, sds) {
      var t, actor :| LegalAttempt(ex, w, w', tenant, id, sds, manual, t, actor);
      AttemptFails(ex, w, tenant, id, t, actor, f);
      AttemptEffect(ex, w, tenant, id, t, actor);
      OneMoreFails(ProgressOf(w, id), ProgressOf(w', id), t, f);
    }
  }

  lemma AttemptFails(ex: Executors, w: World, tenant: nat, id: nat, t: StageType, actor: string, f: StageType)
    requires FailsOnly(ex, f) && Attemptable(w, tenant, id, t)
    ensures Attempt(ex, w, tenant, id, t, actor).1 <==> t != f
  {
    StartEffect(w, tenant, id, t, actor);
    var started, _, _ := AttemptParts(ex, w, tenant, id, t, actor);
    assert RunExecutor(ex, started, id, t).1.success <==> t != f;
  }

  lemma OneMoreFails(p: WorkflowProgress, p': WorkflowProgress, t: StageType, f: StageType)
    requires OneMoreAttempt(p, p', t, t != f) && OnlyOneFails(p, f)
    ensures OnlyOneFails(p', f)
  {
    forall s | s != f ensures FirstTry(p'.Get(s)) { assert FirstTry(p.Get(s)); }
  }

  // ---- Counting the attempts ----

  /** Independent automatic stages. */
  predicate FanOut(sds: seq<StageDefinition>) {
    && sds != [] && DistinctTypes(sds)
    && (forall sd <- sds :: sd.Valid() && sd.trigger == Automatic && sd.predecessors == {})
  }

  /** The stages other than the first that are not yet COMPLETE. */
  function Pending(sds: seq<StageDefinition>, p: WorkflowProgress): set<StageType>
    requires sds != []
  {
    Types(sds) - {sds[0].stageType} - p.Completed()
  }

  /** Mid-run: the first stage can be started, every other one is startable or COMPLETE. */
  predicate Midway(w: World, tenant: nat, id: nat, sds: seq<StageDefinition>) {
    && FanOut(sds) && Active(w, tenant, id, sds)
    && Startable(ProgressOf(w, id).Status(sds[0].stageType))
    && (forall s <- Types(sds) :: ProgressOf(w, id).Status(s) != StageStatus.Running)
  }

  lemma FirstDefinition(sds: seq<StageDefinition>)
    requires FanOut(sds)
    ensures MaxAttempts(Some(sds), sds[0].stageType) == sds[0].maxAttempts >= 1
  {
    assert sds[0].Valid();
  }

  lemma FirstAttempt(ex: Executors, w: World, tenant: nat, id: nat, sds: seq<StageDefinition>) returns (w1: World)
    requires sds != [] && Midway(w, tenant, id, sds)
    requires OnlyOneFails(ProgressOf(Execute(ex, w, tenant, id, sds[0].stageType, SYSTEM_ACTOR).world, id), sds[0].stageType)
    ensures var f := sds[0].stageType;
      && Execute(ex, w, tenant, id, f, SYSTEM_ACTOR) == OnFailed(ex, w1, tenant, id, f)
      && Midway(w1, tenant, id, sds)
      && ProgressOf(w1, id).Get(f).attempts == ProgressOf(w, id).Get(f).attempts + 1
      && ProgressOf(w1, id).Completed() == ProgressOf(w, id).Completed()
      && (RetriesLeft(w1, id, f) > 0 ==> RetriesLeft(w, id, f) == RetriesLeft(w1, id, f) + 1)
  {
    var f := sds[0].stageType;
    AttemptEffect(ex, w, tenant, id, f, SYSTEM_ACTOR);
    AttemptProgresses(ex, w, tenant, id, sds, f, SYSTEM_ACTOR);
    w1 := Attempt(ex, w, tenant, id, f, SYSTEM_ACTOR).0.world;
    FirstOutcome(ex, w, tenant, id, sds, f, f);
    forall s <- Types(sds) ensures ProgressOf(w1, id).Status(s) != StageStatus.Running {}
  }

  /** The first attempt of an execution in such a run. */
  lemma FirstOutcome(ex: Executors, w: World, tenant: nat, id: nat, sds: seq<StageDefinition>, f: StageType, s: StageType)
    requires Active(w, tenant, id, sds) && Attemptable(w, tenant, id, s)
    requires OnlyOneFails(ProgressOf(Execute(ex, w, tenant, id, s, SYSTEM_ACTOR).world, id), f)
    ensures Attempt(ex, w, tenant, id, s, SYSTEM_ACTOR).1 <==> s != f
  {
    var w1 := Attempt(ex, w, tenant, id, s, SYSTEM_ACTOR).0.world;
    AttemptedGrows(ex, w, tenant, id, s, SYSTEM_ACTOR, sds);
    FailedBefore(ProgressOf(w1, id), ProgressOf(Execute(ex, w, tenant, id, s, SYSTEM_ACTOR).world, id), f);
    AttemptOutcome(ex, w, tenant, id, f, s, SYSTEM_ACTOR);
  }

  /** The failing stage spends its budget, or one attempt if it is spent already. */
  lemma {:induction false} FirstFails(ex: Executors, w: World, tenant: nat, id: nat, sds: seq<StageDefinition>)
    requires sds != [] && Midway(w, tenant, id, sds)
    requires OnlyOneFails(ProgressOf(Execute(ex, w, tenant, id, sds[0].stageType, SYSTEM_ACTOR).world, id), sds[0].stageType)
    ensures var f := sds[0].stageType;
      var w' := Execute(ex, w, tenant, id, f, SYSTEM_ACTOR).world;
      && Execute(ex, w, tenant, id, f, SYSTEM_ACTOR).error == None
      && Midway(w', tenant, id, sds)
      && ProgressOf(w', id).Get(f).attempts == Max(ProgressOf(w, id).Get(f).attempts + 1, sds[0].maxAttempts)
      && ProgressOf(w', id).Completed() == ProgressOf(w, id).Completed()
    decreases RetriesLeft(w, id, sds[0].stageType)
  {
    var f := sds[0].stageType;
    FirstDefinition(sds);
    var w1 := FirstAttempt(ex, w, tenant, id, sds);
    if RetriesLeft(w1, id, f) > 0 {
      FirstFails(ex, w1, tenant, id, sds);
    }
  }

  /** The dispatch list: the failing stage first, then every pending one. */
  lemma ListOf(sds: seq<StageDefinition>, p: WorkflowProgress) returns (tail: seq<StageDefinition>)
    requires FanOut(sds) && Startable(p.Status(sds[0].stageType))
    requires forall s <- Types(sds) :: p.Status(s) != StageStatus.Running
    ensures AutomaticOf(RunnableStages(sds, p)) == [sds[0]] + tail
    ensures Types(tail) <= Types(sds) - {sds[0].stageType}
    ensures Pending(sds, p) <= Types(tail)
  {
    assert sds[0] in sds && Runnable(sds[0], p);
    tail := AutomaticOf(RunnableStages(sds[1..], p));
    forall sd <- tail ensures sd.stageType in Types(sds) - {sds[0].stageType} { assert sd in sds[1..]; }
    forall s <- Pending(sds, p) ensures s in Types(tail) {
      var sd :| sd in sds && sd.stageType == s;
      assert sd in sds[1..] && Runnable(sd, p);
      assert sd in RunnableStages(sds[1..], p);
    }
  }

  /** One dispatch: the first stage once more than its budget allows for each completion to come. */
  lemma {:induction false} DispatchAttains(ex: Executors, w: World, tenant: nat, id: nat, sds: seq<StageDefinition>)
    requires sds != [] && Midway(w, tenant, id, sds)
    requires OnlyOneFails(ProgressOf(Dispatch(ex, w, tenant, id).world, id), sds[0].stageType)
    ensures var r := Dispatch(ex, w, tenant, id);
      && r.error == None
      && Midway(r.world, tenant, id, sds) && Pending(sds, ProgressOf(r.world, id)) == {}
      && ProgressOf(r.world, id).Get(sds[0].stageType).attempts
         == Max(ProgressOf(w, id).Get(sds[0].stageType).attempts + 1, sds[0].maxAttempts)
            + |Pending(sds, ProgressOf(w, id))|
    decreases Remaining(w, id), 2, 0
  {
    var f := sds[0].stageType;
    var tail := ListOf(sds, ProgressOf(w, id));
    ExecuteGrows(ex, w, tenant, id, f, SYSTEM_ACTOR, sds);
    var w1 := Execute(ex, w, tenant, id, f, SYSTEM_ACTOR).world;
    assert ([sds[0]] + tail)[1..] == tail;
    assert Dispatch(ex, w, tenant, id) == DispatchEach(ex, w1, tenant, id, tail);
    EachGrows(ex, w1, tenant, id, tail, sds);
    FailedBefore(ProgressOf(w1, id), ProgressOf(Dispatch(ex, w, tenant, id).world, id), f);
    FirstFails(ex, w, tenant, id, sds);
    FewerRemain(w, w1, id);
    EachAttains(ex, w1, tenant, id, sds, tail);
  }

  lemma HeadAndTail(rest: seq<StageDefinition>)
    requires rest != []
    ensures Types(rest) == {rest[0].stageType} + Types(rest[1..])
  {}

  lemma SkippedIsDone(sds: seq<StageDefinition>, p: WorkflowProgress, t: StageType)
    requires sds != [] && t in Types(sds) && !Startable(p.Status(t)) && p.Status(t) != StageStatus.Running
    ensures t !in Pending(sds, p)
  {}

  lemma {:induction false} EachAttains(ex: Executors, w: World, tenant: nat, id: nat, sds: seq<StageDefinition>,
                                       rest: seq<StageDefinition>)
    requires sds != [] && Midway(w, tenant, id, sds)
    requires OnlyOneFails(ProgressOf(DispatchEach(ex, w, tenant, id, rest).world, id), sds[0].stageType)
    requires ProgressOf(w, id).Get(sds[0].stageType).attempts >= sds[0].maxAttempts
    requires Types(rest) <= Types(sds) - {sds[0].stageType}
    requires Pending(sds, ProgressOf(w, id)) <= Types(rest)
    ensures var r := DispatchEach(ex, w, tenant, id, rest);
      && r.error == None
      && Midway(r.world, tenant, id, sds) && Pending(sds, ProgressOf(r.world, id)) == {}
      && ProgressOf(r.world, id).Get(sds[0].stageType).attempts
         == ProgressOf(w, id).Get(sds[0].stageType).attempts + |Pending(sds, ProgressOf(w, id))|
    decreases Remaining(w, id), 1, |rest|
  {
    if rest == [] {
      assert Types(rest) == {};
    } else {
      var t := rest[0].stageType;
      HeadAndTail(rest);
      if !Startable(ProgressOf(w, id).Status(t)) {
        SkippedIsDone(sds, ProgressOf(w, id), t);
        EachAttains(ex, w, tenant, id, sds, rest[1..]);
      } else {
        ExecuteGrows(ex, w, tenant, id, t, SYSTEM_ACTOR, sds);
        var w' := Execute(ex, w, tenant, id, t, SYSTEM_ACTOR).world;
        EachGrows(ex, w', tenant, id, rest[1..], sds);
        FailedBefore(ProgressOf(w', id), ProgressOf(DispatchEach(ex, w, tenant, id, rest).world, id), sds[0].stageType);
        OtherAttains(ex, w, tenant, id, sds, t);
        FewerRemain(w, w', id);
        EachAttains(ex, w', tenant, id, sds, rest[1..]);
      }
    }
  }

  /** Running another stage completes it, and then everything that is pending. */
  lemma {:induction false} OtherAttains(ex: Executors, w: World, tenant: nat, id: nat, sds: seq<StageDefinition>, t: StageType)
    requires sds != [] && Midway(w, tenant, id, sds)
    requires Attemptable(w, tenant, id, t)
    requires OnlyOneFails(ProgressOf(Execute(ex, w, tenant, id, t, SYSTEM_ACTOR).world, id), sds[0].stageType)
    requires ProgressOf(w, id).Get(sds[0].stageType).attempts >= sds[0].maxAttempts
    requires t in Types(sds) && t != sds[0].stageType
    ensures var r := Execute(ex, w, tenant, id, t, SYSTEM_ACTOR);
      && r.error == None
      && Midway(r.world, tenant, id, sds) && Pending(sds, ProgressOf(r.world, id)) == {}
      && ProgressOf(r.world, id).Get(sds[0].stageType).attempts
         == ProgressOf(w, id).Get(sds[0].stageType).attempts + |Pending(sds, ProgressOf(w, id))|
    decreases Remaining(w, id), 0, 0
  {
    var w1 := OtherAttempt(ex, w, tenant, id, sds, t);
    OtherCompleted(ex, w, w1, tenant, id, sds, t);
    DispatchAttains(ex, w1, tenant, id, sds);
  }

  /** Another stage's completion leads to one more dispatch, with one stage less pending. */
  lemma OtherCompleted(ex: Executors, w: World, w1: World, tenant: nat, id: nat, sds: seq<StageDefinition>, t: StageType)
    requires Midway(w, tenant, id, sds) && Active(w1, tenant, id, sds)
    requires OneMoreAttempt(ProgressOf(w, id), ProgressOf(w1, id), t, true)
    requires t in Types(sds) && t != sds[0].stageType
    ensures OnCompleted(ex, w1, tenant, id) == Dispatch(ex, w1, tenant, id)
    ensures Midway(w1, tenant, id, sds)
    ensures ProgressOf(w1, id).Get(sds[0].stageType) == ProgressOf(w, id).Get(sds[0].stageType)
    ensures |Pending(sds, ProgressOf(w1, id))| == |Pending(sds, ProgressOf(w, id))| - 1
  {
    PendingShrinks(sds, ProgressOf(w, id), ProgressOf(w1, id), t);
    StillMidway(sds, ProgressOf(w, id), ProgressOf(w1, id), t);
    IncompleteDispatches(ex, w1, tenant, id, sds);
  }

  lemma StillMidway(sds: seq<StageDefinition>, p: WorkflowProgress, p': WorkflowProgress, t: StageType)
    requires OneMoreAttempt(p, p', t, true)
    requires forall s <- Types(sds) :: p.Status(s) != StageStatus.Running
    ensures forall s <- Types(sds) :: p'.Status(s) != StageStatus.Running
  {}

  lemma IncompleteDispatches(ex: Executors, w: World, tenant: nat, id: nat, sds: seq<StageDefinition>)
    requires Active(w, tenant, id, sds) && !ProgressOf(w, id).AllComplete(Types(sds))
    ensures OnCompleted(ex, w, tenant, id) == Dispatch(ex, w, tenant, id)
  {}

  lemma OtherAttempt(ex: Executors, w: World, tenant: nat, id: nat, sds: seq<StageDefinition>, t: StageType) returns (w1: World)
    requires sds != [] && Midway(w, tenant, id, sds)
    requires Attemptable(w, tenant, id, t) && t != sds[0].stageType
    requires OnlyOneFails(ProgressOf(Execute(ex, w, tenant, id, t, SYSTEM_ACTOR).world, id), sds[0].stageType)
    ensures Execute(ex, w, tenant, id, t, SYSTEM_ACTOR) == OnCompleted(ex, w1, tenant, id)
    ensures Remaining(w1, id) < Remaining(w, id)
    ensures Active(w1, tenant, id, sds)
    ensures OneMoreAttempt(ProgressOf(w, id), ProgressOf(w1, id), t, true)
  {
    AttemptEffect(ex, w, tenant, id, t, SYSTEM_ACTOR);
    AttemptProgresses(ex, w, tenant, id, sds, t, SYSTEM_ACTOR);
    FirstOutcome(ex, w, tenant, id, sds, sds[0].stageType, t);
    w1 := Attempt(ex, w, tenant, id, t, SYSTEM_ACTOR).0.world;
  }

  lemma {:induction false} PendingShrinks(sds: seq<StageDefinition>, p: WorkflowProgress, p': WorkflowProgress, t: StageType)
    requires sds != [] && OneMoreAttempt(p, p', t, true)
    requires t in Types(sds) && t != sds[0].stageType && Startable(p.Status(sds[0].stageType))
    ensures |Pending(sds, p')| == |Pending(sds, p)| - 1
    ensures !p'.AllComplete(Types(sds))
  {
    assert sds[0] in sds;
    CompletedAfter(p, p', t, true);
    assert Pending(sds, p') == Pending(sds, p) - {t};
  }

  lemma AllPending(sds: seq<StageDefinition>, p: WorkflowProgress)
    requires FanOut(sds) && forall s :: p.Get(s) == FreshEntry(s)
    ensures |Pending(sds, p)| == |sds| - 1
  {
    assert sds[0] in sds;
    assert p.Completed() == {};
    assert Pending(sds, p) == Types(sds) - {sds[0].stageType};
    DistinctCount(sds);
  }

  /** A run of an executor that fails for one stage only is such a run. */
  lemma FailsOnlyRuns(ex: Executors, w: World, tenant: nat, id: nat, template: nat, actor: string, f: StageType)
    requires IssueStartWorkflow(w, tenant, id, template, actor).Ok? && Consistent(w) && FailsOnly(ex, f)
    ensures OnlyFailing(StartAll(ex, w, tenant, id, template, actor).world, id, f)
  {
    var sds := w.templates[template].stages;
    var started := IssueStartWorkflow(w, tenant, id, template, actor).value;
    StartedActive(w, tenant, id, template, actor);
    var ws := DispatchPath(ex, started, tenant, id, sds, {});
    PathFails(ex, tenant, id, sds, {}, ws, f);
    StartedBalance(ex, w, tenant, id, template, actor);
    var w' := StartAll(ex, w, tenant, id, template, actor).world;
    OnlyFailingIff(HistoryOf(w'.outbox, AssessmentId(id)), ProgressOf(w', id), f);
  }

  /** For every such template, every run in which the first stage never completes and no other stage fails
      attempts the first stage exactly its budget plus once for each other stage. */
  lemma {:induction false} BoundReached(ex: Executors, w: World, tenant: nat, id: nat, template: nat, actor: string)
    requires IssueStartWorkflow(w, tenant, id, template, actor).Ok? && FanOut(w.templates[template].stages)
    requires Consistent(w)
    requires OnlyFailing(StartAll(ex, w, tenant, id, template, actor).world, id, w.templates[template].stages[0].stageType)
    ensures var sds := w.templates[template].stages;
      ProgressOf(StartAll(ex, w, tenant, id, template, actor).world, id).Get(sds[0].stageType).attempts
      == sds[0].maxAttempts + |sds| - 1
  {
    var sds := w.templates[template].stages;
    var w' := StartAll(ex, w, tenant, id, template, actor).world;
    StartedBalance(ex, w, tenant, id, template, actor);
    OnlyFailingIff(HistoryOf(w'.outbox, AssessmentId(id)), ProgressOf(w', id), sds[0].stageType);
    StartedActive(w, tenant, id, template, actor);
    AttainedFromFresh(ex, IssueStartWorkflow(w, tenant, id, template, actor).value, tenant, id, sds);
  }

  lemma AttainedFromFresh(ex: Executors, w: World, tenant: nat, id: nat, sds: seq<StageDefinition>)
    requires Active(w, tenant, id, sds) && FanOut(sds) && forall s :: ProgressOf(w, id).Get(s) == FreshEntry(s)
    requires OnlyOneFails(ProgressOf(Dispatch(ex, w, tenant, id).world, id), sds[0].stageType)
    ensures ProgressOf(Dispatch(ex, w, tenant, id).world, id).Get(sds[0].stageType).attempts == sds[0].maxAttempts + |sds| - 1
  {
    FirstDefinition(sds);
    assert ProgressOf(w, id).Get(sds[0].stageType) == FreshEntry(sds[0].stageType);
    forall s <- Types(sds) ensures ProgressOf(w, id).Status(s) != StageStatus.Running {
      assert ProgressOf(w, id).Get(s) == FreshEntry(s);
    }
    DispatchAttains(ex, w, tenant, id, sds);
    AllPending(sds, ProgressOf(w, id));
  }
}
