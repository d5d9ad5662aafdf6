/** The order of stage starts, as the log shows it: what the engine may start, and what a manual
    trigger may. */
module StartOrder {
  import opened Results
  import opened Stages
  import opened Templates
  import opened Assessments
  import opened Replay
  import opened Platform
  import opened OutboxLog
  import opened Interleavings
  import opened Engine
  import opened EngineRuns
  import opened EngineTheorems
  import opened Requests
  import opened Scenarios
  import opened WorkflowGuarantees

  /** What a start may be held to: the dispatch rule, in the engine's own name; the same, one triggered stage
      excepted; or COMPLETE predecessors, whoever started it. */
  datatype Rule = Dispatched | OrTriggered(s: StageType) | PredecessorsDone

  predicate Allows(rule: Rule, sds: seq<StageDefinition>, p: WorkflowProgress, s: StageType, actor: string) {
    match rule
    case Dispatched => Eligible(sds, p, s) && actor == "system:workflow-engine"
    case OrTriggered(t) => s == t || (Eligible(sds, p, s) && actor == "system:workflow-engine")
    case PredecessorsDone => PredecessorsMet(sds, p, s)
  }

  /** The stages triggered by hand do not break the rule. */
  predicate Obeys(rule: Rule, sds: seq<StageDefinition>, p: WorkflowProgress, manual: set<StageType>) {
    match rule
    case Dispatched => manual == {}
    case OrTriggered(t) => manual <= {t}
    case PredecessorsDone => forall s <- manual :: PredecessorsMet(sds, p, s)
  }

  /** The k-th outbox row, if it starts a stage of this assessment, does so when the log up to that row
      shows the assessment running, the stage not running or complete, and the rule obeyed. */
  predicate StartJustified(outbox: seq<OutboxRow>, k: nat, id: nat, sds: seq<StageDefinition>, rule: Rule)
    requires k < |outbox|
  {
    outbox[k].aggregate == AssessmentId(id) && outbox[k].event.ExecutionStarted? ==>
      match Rebuild(HistoryOf(outbox[..k], AssessmentId(id)))
      case None => false
      case Some(a) =>
        && a.status == Lifecycle.Running
        && Startable(a.progress.Status(outbox[k].event.stage))
        && Allows(rule, sds, a.progress, outbox[k].event.stage, outbox[k].event.actor)
  }

  ghost predicate AllJustified(from: nat, outbox: seq<OutboxRow>, id: nat, sds: seq<StageDefinition>, rule: Rule) {
    forall k :: from <= k < |outbox| ==> StartJustified(outbox, k, id, sds, rule)
  }

  predicate NoStarts(from: nat, outbox: seq<OutboxRow>) {
    forall k :: from <= k < |outbox| ==> !outbox[k].event.ExecutionStarted?
  }

  lemma IssueOutbox(w: World, tenant: nat, id: nat, cmd: Command)
    requires Issue(w, tenant, id, cmd).Ok?
    ensures var outbox := Issue(w, tenant, id, cmd).value.outbox;
      && w.outbox <= outbox
      && (!cmd.StartStage? ==> NoStarts(|w.outbox|, outbox))
      && (cmd.StartStage? ==> |outbox| == |w.outbox| + 1 && outbox[|w.outbox|].event.ExecutionStarted?
                              && outbox[|w.outbox|].event.stage == cmd.stage && outbox[|w.outbox|].event.actor == cmd.actor)
  {
    StartEvents(w.assessments[id].state, cmd);
    AppendAllExtends(w.outbox, AssessmentId(id), w.assessments[id].state.Apply(cmd).value.events);
  }

  /** Only a start command emits a start event, and then it is the only event. */
  lemma StartEvents(a: AssessmentState, cmd: Command)
    requires a.Apply(cmd).Ok?
    ensures var events := a.Apply(cmd).value.events;
      if cmd.StartStage? then
        |events| == 1 && events[0].ExecutionStarted? && events[0].stage == cmd.stage && events[0].actor == cmd.actor
      else forall i :: 0 <= i < |events| ==> !events[i].ExecutionStarted?
  {}

  lemma ExecutorOutbox(ex: Executors, w: World, id: nat, s: StageType)
    ensures var outbox := RunExecutor(ex, w, id, s).0.outbox; w.outbox <= outbox && NoStarts(|w.outbox|, outbox)
  {}

  /** An attempt adds one start, first, and then nothing else that starts a stage. */
  lemma AttemptOutbox(ex: Executors, w: World, tenant: nat, id: nat, s: StageType, actor: string)
    requires Attemptable(w, tenant, id, s)
    ensures var outbox := Attempt(ex, w, tenant, id, s, actor).0.world.outbox;
      && w.outbox <= outbox && |w.outbox| < |outbox|
      && outbox[|w.outbox|].event.ExecutionStarted?
      && outbox[|w.outbox|].event.stage == s && outbox[|w.outbox|].event.actor == actor
      && NoStarts(|w.outbox| + 1, outbox)
  {
    var started, ran, record := AttemptParts(ex, w, tenant, id, s, actor);
    IssueOutbox(w, tenant, id, StartStage(s, actor));
    ExecutorOutbox(ex, started, id, s);
    IssueOutbox(ran, tenant, id, record);
  }

  lemma StepJustified(ex: Executors, w: World, w': World, tenant: nat, id: nat, sds: seq<StageDefinition>,
                      manual: set<StageType>, rule: Rule)
    requires EngineStep(ex, w, w', tenant, id, sds, manual) && Consistent(w)
    requires Obeys(rule, sds, ProgressOf(w, id), manual)
    ensures w.outbox <= w'.outbox && AllJustified(|w.outbox|, w'.outbox, id, sds, rule)
  {
    if LegalAdvance(w, w', tenant, id, sds) {
      IssueOutbox(w, tenant, id, AdvancePastRunning(Types(sds), SYSTEM_ACTOR));
    } else {
      var s, actor :| LegalAttempt(ex, w, w', tenant, id, sds, manual, s, actor);
      AttemptOutbox(ex, w, tenant, id, s, actor);
      assert Faithful(HistoryOf(w.outbox, AssessmentId(id)), w.assessments[id].state);
      PermittedAllowed(rule, sds, manual, ProgressOf(w, id), s, actor);
      OneStartJustified(w.outbox, w'.outbox, id, sds, rule, w.assessments[id].state);
    }
  }

  /** One more start, first of the rows added, by the state the log describes. */
  lemma OneStartJustified(outbox: seq<OutboxRow>, outbox': seq<OutboxRow>, id: nat, sds: seq<StageDefinition>,
                          rule: Rule, a: AssessmentState)
    requires outbox <= outbox' && |outbox| < |outbox'| && outbox'[|outbox|].event.ExecutionStarted?
    requires NoStarts(|outbox| + 1, outbox') && Rebuild(HistoryOf(outbox, AssessmentId(id))) == Some(a)
    requires var e := outbox'[|outbox|].event;
      && a.status == Lifecycle.Running && Startable(a.progress.Status(e.stage))
      && Allows(rule, sds, a.progress, e.stage, e.actor)
    ensures AllJustified(|outbox|, outbox', id, sds, rule)
  {
    assert outbox'[..|outbox|] == outbox;
  }

  lemma PermittedAllowed(rule: Rule, sds: seq<StageDefinition>, manual: set<StageType>, p: WorkflowProgress,
                         s: StageType, actor: string)
    requires Obeys(rule, sds, p, manual) && Permitted(sds, manual, p, s) && (actor == SYSTEM_ACTOR || s in manual)
    ensures Allows(rule, sds, p, s, actor)
  {}

  lemma ObeysGrows(rule: Rule, sds: seq<StageDefinition>, manual: set<StageType>, p: WorkflowProgress, p': WorkflowProgress)
    requires Obeys(rule, sds, p, manual) && p.Completed() <= p'.Completed()
    ensures Obeys(rule, sds, p', manual)
  {
    if rule.PredecessorsDone? {
      forall s <- manual ensures PredecessorsMet(sds, p', s) {
        assert PredecessorsMet(sds, p, s);
        var sd :| sd in sds && sd.stageType == s && p.AllComplete(sd.predecessors);
        forall q <- sd.predecessors ensures p'.Status(q) == StageStatus.Complete { assert q in p.Completed(); }
      }
    }
  }

  lemma {:induction false} PathJustified(ex: Executors, tenant: nat, id: nat, sds: seq<StageDefinition>,
                                         manual: set<StageType>, ws: seq<World>, rule: Rule)
    requires Path(ex, tenant, id, sds, manual, ws) && Consistent(ws[0]) && id < |ws[0].assessments|
    requires Obeys(rule, sds, ProgressOf(ws[0], id), manual)
    ensures ws[0].outbox <= ws[|ws| - 1].outbox
    ensures AllJustified(|ws[0].outbox|, ws[|ws| - 1].outbox, id, sds, rule)
  {
    if |ws| > 1 {
      var n := |ws| - 1;
      LastStep(ex, tenant, id, sds, manual, ws);
      PathJustified(ex, tenant, id, sds, manual, ws[..n], rule);
      PathActs(ex, tenant, id, sds, manual, ws[..n]);
      PathGrows(ex, tenant, id, sds, manual, ws[..n]);
      ObeysGrows(rule, sds, manual, ProgressOf(ws[0], id), ProgressOf(ws[n - 1], id));
      StepJustified(ex, ws[n - 1], ws[n], tenant, id, sds, manual, rule);
      Extended(|ws[0].outbox|, ws[n - 1].outbox, ws[n].outbox, id, sds, rule);
    }
  }

  lemma Extended(from: nat, outbox: seq<OutboxRow>, outbox': seq<OutboxRow>, id: nat, sds: seq<StageDefinition>, rule: Rule)
    requires from <= |outbox| && outbox <= outbox'
    requires AllJustified(from, outbox, id, sds, rule) && AllJustified(|outbox|, outbox', id, sds, rule)
    ensures AllJustified(from, outbox', id, sds, rule)
  {
    forall k | from <= k < |outbox'| ensures StartJustified(outbox', k, id, sds, rule) {
      if k < |outbox| {
        assert StartJustified(outbox, k, id, sds, rule);
        assert outbox'[..k] == outbox[..k];
      }
    }
  }

  lemma DispatchJustified(ex: Executors, w: World, tenant: nat, id: nat, sds: seq<StageDefinition>)
    requires Active(w, tenant, id, sds) && Consistent(w)
    ensures var outbox := Dispatch(ex, w, tenant, id).world.outbox;
      w.outbox <= outbox && AllJustified(|w.outbox|, outbox, id, sds, Dispatched)
  {
    var ws := DispatchPath(ex, w, tenant, id, sds, {});
    PathJustified(ex, tenant, id, sds, {}, ws, Dispatched);
  }

  /** Although the dispatch list is computed before nested calls change the state, every stage the
      engine starts has, at that very moment, all predecessors of an automatic definition COMPLETE. */
  lemma {:induction false} StartedWorkflowJustified(ex: Executors, w: World, tenant: nat, id: nat, template: nat, actor: string)
    requires IssueStartWorkflow(w, tenant, id, template, actor).Ok? && Consistent(w)
    ensures AllJustified(|w.outbox|, StartAll(ex, w, tenant, id, template, actor).world.outbox, id,
                         w.templates[template].stages, Dispatched)
  {
    var sds := w.templates[template].stages;
    var cmd := StartWorkflow(template, Types(sds), actor);
    var started := IssueStartWorkflow(w, tenant, id, template, actor).value;
    StartedActive(w, tenant, id, template, actor);
    IssueActs(w, tenant, id, cmd);
    IssueOutbox(w, tenant, id, cmd);
    DispatchJustified(ex, started, tenant, id, sds);
    Extended(|w.outbox|, started.outbox, Dispatch(ex, started, tenant, id).world.outbox, id, sds, Dispatched);
  }

  // ---- Manual triggers ----

  lemma StepOutbox(ex: Executors, w: World, w': World, tenant: nat, id: nat, sds: seq<StageDefinition>, manual: set<StageType>)
    requires EngineStep(ex, w, w', tenant, id, sds, manual)
    ensures w.outbox <= w'.outbox
  {
    if LegalAdvance(w, w', tenant, id, sds) {
      IssueOutbox(w, tenant, id, AdvancePastRunning(Types(sds), SYSTEM_ACTOR));
    } else {
      var s, actor :| LegalAttempt(ex, w, w', tenant, id, sds, manual, s, actor);
      AttemptOutbox(ex, w, tenant, id, s, actor);
    }
  }

  lemma {:induction false} PathOutbox(ex: Executors, tenant: nat, id: nat, sds: seq<StageDefinition>,
                                      manual: set<StageType>, ws: seq<World>)
    requires Path(ex, tenant, id, sds, manual, ws)
    ensures ws[0].outbox <= ws[|ws| - 1].outbox
  {
    if |ws| > 1 {
      var n := |ws| - 1;
      LastStep(ex, tenant, id, sds, manual, ws);
      PathOutbox(ex, tenant, id, sds, manual, ws[..n]);
      StepOutbox(ex, ws[n - 1], ws[n], tenant, id, sds, manual);
    }
  }

  /** What follows the first attempt only adds to the log. */
  lemma AttemptedOutbox(ex: Executors, w: World, tenant: nat, id: nat, s: StageType, actor: string, sds: seq<StageDefinition>)
    requires Active(w, tenant, id, sds) && Attemptable(w, tenant, id, s)
    ensures Attempt(ex, w, tenant, id, s, actor).0.world.outbox <= Execute(ex, w, tenant, id, s, actor).world.outbox
  {
    AttemptProgresses(ex, w, tenant, id, sds, s, actor);
    var (r, success) := Attempt(ex, w, tenant, id, s, actor);
    if success {
      var ws := CompletedPath(ex, r.world, tenant, id, sds, {s});
      PathOutbox(ex, tenant, id, sds, {s}, ws);
    } else {
      var ws := FailedPath(ex, r.world, tenant, id, s, sds, {s});
      PathOutbox(ex, tenant, id, sds, {s}, ws);
    }
  }

  /** The first row a trigger adds is the start of the triggered stage. */
  lemma TriggeredFirst(ex: Executors, w: World, tenant: nat, id: nat, s: StageType, actor: string, sds: seq<StageDefinition>)
    requires Active(w, tenant, id, sds) && Attemptable(w, tenant, id, s) && Consistent(w)
    ensures var outbox := Execute(ex, w, tenant, id, s, actor).world.outbox;
      && w.outbox <= outbox && |w.outbox| < |outbox|
      && (StartJustified(outbox, |w.outbox|, id, sds, PredecessorsDone) <==> PredecessorsMet(sds, ProgressOf(w, id), s))
  {
    AttemptOutbox(ex, w, tenant, id, s, actor);
    AttemptedOutbox(ex, w, tenant, id, s, actor, sds);
    AttemptStartsOwn(ex, w, tenant, id, s, actor);
    var outbox := Execute(ex, w, tenant, id, s, actor).world.outbox;
    assert outbox[..|w.outbox|] == w.outbox;
    assert Faithful(HistoryOf(w.outbox, AssessmentId(id)), w.assessments[id].state);
  }

  lemma AttemptStartsOwn(ex: Executors, w: World, tenant: nat, id: nat, s: StageType, actor: string)
    requires Attemptable(w, tenant, id, s)
    ensures var outbox := Attempt(ex, w, tenant, id, s, actor).0.world.outbox;
      |w.outbox| < |outbox| && outbox[|w.outbox|].aggregate == AssessmentId(id)
  {
    var started, ran, record := AttemptParts(ex, w, tenant, id, s, actor);
    AppendAllExtends(w.outbox, AssessmentId(id), w.assessments[id].state.Apply(StartStage(s, actor)).value.events);
    IssueOutbox(w, tenant, id, StartStage(s, actor));
    ExecutorOutbox(ex, started, id, s);
    IssueOutbox(ran, tenant, id, record);
  }

  /** After a user's trigger every start, the retries and the dispatches that follow included, has all
      predecessors of a definition of its stage COMPLETE - if and only if the triggered stage had when it was triggered. */
  lemma {:induction false} TriggeredStartsReadyIff(ex: Executors, w: World, tenant: nat, id: nat, s: StageType, actor: string)
    requires Attemptable(w, tenant, id, s) && BoundStages(w, id).Some? && Consistent(w)
    ensures var sds := BoundStages(w, id).value;
      AllJustified(|w.outbox|, Execute(ex, w, tenant, id, s, actor).world.outbox, id, sds, PredecessorsDone)
      <==> PredecessorsMet(sds, ProgressOf(w, id), s)
  {
    var sds := BoundStages(w, id).value;
    TriggeredFirst(ex, w, tenant, id, s, actor, sds);
    if PredecessorsMet(sds, ProgressOf(w, id), s) {
      var ws := ExecutePath(ex, w, tenant, id, s, actor, sds, {s});
      PathJustified(ex, tenant, id, sds, {s}, ws, PredecessorsDone);
    }
  }

  /** Whatever was triggered, all other stages start only as the dispatch rule allows. */
  lemma {:induction false} TriggeredRunJustified(ex: Executors, w: World, tenant: nat, id: nat, s: StageType, actor: string)
    requires Attemptable(w, tenant, id, s) && BoundStages(w, id).Some? && Consistent(w)
    ensures AllJustified(|w.outbox|, Execute(ex, w, tenant, id, s, actor).world.outbox, id, BoundStages(w, id).value, OrTriggered(s))
  {
    var sds := BoundStages(w, id).value;
    var ws := ExecutePath(ex, w, tenant, id, s, actor, sds, {s});
    PathJustified(ex, tenant, id, sds, {s}, ws, OrTriggered(s));
  }

  /** A manual stage, and a manual stage that needs it. */
  const TWO_MANUAL: seq<StageDefinition> :=
    [StageDefinition(Hazard, {}, Manual, 1), StageDefinition(Risk, {Hazard}, Manual, 1)]

  function UnreadyTrigger(): seq<Request> {
    READY_ASSESSMENT + [BeginWorkflow(0, 0, 0, "u")] + [TriggerStage(0, 0, Risk, "u")]
  }

  /** Four requests complete a stage whose predecessor never ran. */
  lemma TriggerSkipsPredecessor(ex: Executors)
    requires Succeeds(ex, Risk)
    ensures var w := ServeAll(ex, Empty([Template(Flood, Published, TWO_MANUAL)]), UnreadyTrigger());
      && |w.assessments| == 1
      && ProgressOf(w, 0).Status(Risk) == StageStatus.Complete && ProgressOf(w, 0).Get(Hazard) == FreshEntry(Hazard)
  {
    var w0 := Empty([Template(Flood, Published, TWO_MANUAL)]);
    ReadyAssessment(ex, w0.templates);
    var started := READY_ASSESSMENT + [BeginWorkflow(0, 0, 0, "u")];
    OneMoreRequest(ex, w0, READY_ASSESSMENT, BeginWorkflow(0, 0, 0, "u"));
    OneMoreRequest(ex, w0, started, TriggerStage(0, 0, Risk, "u"));
    TwoManualStarted(ex, ServeAll(ex, w0, READY_ASSESSMENT));
    RiskTriggered(ex, ServeAll(ex, w0, started));
  }

  lemma TwoManualStarted(ex: Executors, w: World)
    requires Alone(w, [Template(Flood, Published, TWO_MANUAL)], Lifecycle.Ready, 1)
    ensures var w' := StartAll(ex, w, 0, 0, 0, "u").world;
      Active(w', 0, 0, TWO_MANUAL) && |w'.assessments| == 1 && forall s :: ProgressOf(w', 0).Get(s) == FreshEntry(s)
  {
    NothingDispatched(ex, w, 0, 0, 0, "u");
  }

  predicate NoAutomatic(sds: seq<StageDefinition>) {
    forall sd <- sds :: sd.trigger == Manual
  }

  /** A template without automatic stages waits for its first trigger. */
  lemma NothingDispatched(ex: Executors, w: World, tenant: nat, id: nat, template: nat, actor: string)
    requires IssueStartWorkflow(w, tenant, id, template, actor).Ok?
    requires w.templates[template].stages != [] && NoAutomatic(w.templates[template].stages)
    ensures var w' := StartAll(ex, w, tenant, id, template, actor).world;
      && Active(w', tenant, id, w.templates[template].stages) && |w'.assessments| == |w.assessments|
      && (forall s :: ProgressOf(w', id).Get(s) == FreshEntry(s))
  {
    var sds := w.templates[template].stages;
    StartedWorkflowSettles(ex, w, tenant, id, template, actor);
    StartedActive(w, tenant, id, template, actor);
    DispatchGrows(ex, IssueStartWorkflow(w, tenant, id, template, actor).value, tenant, id, sds);
    var p := ProgressOf(StartAll(ex, w, tenant, id, template, actor).world, id);
    assert p.Get(sds[0].stageType) == FreshEntry(sds[0].stageType);
  }

  lemma RiskTriggered(ex: Executors, w: World)
    requires Active(w, 0, 0, TWO_MANUAL) && |w.assessments| == 1 && forall s :: ProgressOf(w, 0).Get(s) == FreshEntry(s)
    requires Succeeds(ex, Risk)
    ensures var w' := Execute(ex, w, 0, 0, Risk, "u").world;
      && |w'.assessments| == 1
      && ProgressOf(w', 0).Status(Risk) == StageStatus.Complete && ProgressOf(w', 0).Get(Hazard) == FreshEntry(Hazard)
  {
    assert ProgressOf(w, 0).Get(Risk) == FreshEntry(Risk);
    var started, _, _ := AttemptParts(ex, w, 0, 0, Risk, "u");
    assert RunExecutor(ex, started, 0, Risk).1.success;
    AttemptEffect(ex, w, 0, 0, Risk, "u");
    AttemptedGrows(ex, w, 0, 0, Risk, "u", TWO_MANUAL);
    var ws := ExecutePath(ex, w, 0, 0, Risk, "u", TWO_MANUAL, {Risk});
    PathEvolves(ex, 0, 0, TWO_MANUAL, {Risk}, ws);
    var p' := ProgressOf(Execute(ex, w, 0, 0, Risk, "u").world, 0);
    assert !Eligible(TWO_MANUAL, p', Hazard);
    assert StageEvolves(TWO_MANUAL, {Risk}, ProgressOf(w, 0), p', Hazard);
    assert Risk in ProgressOf(Attempt(ex, w, 0, 0, Risk, "u").0.world, 0).Completed();
  }
}
