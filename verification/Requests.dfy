/** The public operations, served one after another, and what holds after every series of them. */
module Requests {
  import opened Results
  import opened Stages
  import opened Templates
  import opened Assessments
  import opened Replay
  import opened Platform
  import opened OutboxLog
  import opened Interleavings
  import opened Gathering
  import opened Engine
  import opened EngineRuns
  import opened Evidence

  predicate StageCommand(cmd: Command) {
    cmd.StartStage? || cmd.CompleteStage? || cmd.FailStage?
  }

  /** Stage commands are issued by the engine alone; a workflow is started and advanced by it. */
  predicate PlainCommand(cmd: Command) {
    !StageCommand(cmd) && !cmd.StartWorkflow? && !cmd.AdvancePastRunning?
  }

  type LifecycleCommand = cmd: Command | PlainCommand(cmd) witness MarkReady("")

  datatype Request =
    | Create(tenant: nat, name: string, hazard: HazardType, actor: string)
    | ChangeStatus(tenant: nat, id: nat, cmd: LifecycleCommand)
    | BeginWorkflow(tenant: nat, id: nat, template: nat, actor: string)
    | TriggerStage(tenant: nat, id: nat, stage: StageType, actor: string)

  ghost function Serve(ex: Executors, w: World, request: Request): Run {
    match request
    case Create(tenant, name, hazard, actor) =>
      (match CreateAssessment(w, tenant, name, hazard, actor) case Ok(w') => Run(w', None) case Err(e) => Run(w, Some(e)))
    case ChangeStatus(tenant, id, cmd) =>
      (match Issue(w, tenant, id, cmd) case Ok(w') => Run(w', None) case Err(e) => Run(w, Some(e)))
    case BeginWorkflow(tenant, id, template, actor) => StartAll(ex, w, tenant, id, template, actor)
    case TriggerStage(tenant, id, s, actor) => Execute(ex, w, tenant, id, s, actor)
  }

  ghost function ServeAll(ex: Executors, w: World, requests: seq<Request>): World {
    if requests == [] then w
    else Serve(ex, ServeAll(ex, w, requests[..|requests| - 1]), requests[|requests| - 1]).world
  }

  predicate Quiescent(w: World) {
    forall id, s :: 0 <= id < |w.assessments| ==> ProgressOf(w, id).Status(s) != StageStatus.Running
  }

  /** Everything that holds between requests. */
  ghost predicate Sound(ex: Executors, w: World) {
    Consistent(w) && Quiescent(w) && LedgerSound(ex, w) && AllFresh(ex, w.results)
  }

  ghost predicate Later(ex: Executors, w: World, w': World) {
    Persists(w, w') && Preserves(ex, w.results, w'.results)
  }

  lemma LaterJoins(ex: Executors, w: World, v: World, u: World)
    requires Later(ex, w, v) && Later(ex, v, u)
    ensures Later(ex, w, u)
  {
    PersistsJoins(w, v, u);
    forall k | 0 <= k < |w.results| && w.results[k].Completed()
               && ex.dependencies(w.results[k].hazard, w.results[k].stage) != []
      ensures CollectFor(ex, u.results, w.results[k]) == CollectFor(ex, w.results, w.results[k])
    {
      assert v.results[k] == w.results[k];
    }
  }

  // ---- One attempt, one plain command, one creation ----

  lemma ExecutorActs(ex: Executors, w: World, id: nat, s: StageType)
    requires Consistent(w)
    ensures var w' := RunExecutor(ex, w, id, s).0; Consistent(w') && Persists(w, w')
  {
    if s in ex.analysis && id < |w.assessments| { RecordActs(ex, w, id, s); }
  }

  /** An attempt is three atomic actions. */
  lemma AttemptActs(ex: Executors, w: World, tenant: nat, id: nat, s: StageType, actor: string)
    requires Attemptable(w, tenant, id, s) && Consistent(w)
    ensures var w' := Attempt(ex, w, tenant, id, s, actor).0.world; Consistent(w') && Persists(w, w')
  {
    var started, ran, record := AttemptParts(ex, w, tenant, id, s, actor);
    IssueActs(w, tenant, id, StartStage(s, actor));
    ExecutorActs(ex, started, id, s);
    PersistsJoins(w, started, ran);
    IssueActs(ran, tenant, id, record);
    PersistsJoins(w, ran, Attempt(ex, w, tenant, id, s, actor).0.world);
  }

  lemma StepActs(ex: Executors, w: World, w': World, tenant: nat, id: nat, sds: seq<StageDefinition>, manual: set<StageType>)
    requires EngineStep(ex, w, w', tenant, id, sds, manual) && Consistent(w)
    ensures Consistent(w') && Persists(w, w')
  {
    if LegalAdvance(w, w', tenant, id, sds) {
      IssueActs(w, tenant, id, AdvancePastRunning(Types(sds), SYSTEM_ACTOR));
    } else {
      var s, actor :| LegalAttempt(ex, w, w', tenant, id, sds, manual, s, actor);
      AttemptActs(ex, w, tenant, id, s, actor);
    }
  }

  /** Every run of the engine keeps log and rows in step. */
  lemma {:induction false} PathActs(ex: Executors, tenant: nat, id: nat, sds: seq<StageDefinition>,
                                    manual: set<StageType>, ws: seq<World>)
    requires Path(ex, tenant, id, sds, manual, ws) && Consistent(ws[0])
    ensures Consistent(ws[|ws| - 1])
  {
    if |ws| > 1 {
      var n := |ws| - 1;
      LastStep(ex, tenant, id, sds, manual, ws);
      PathActs(ex, tenant, id, sds, manual, ws[..n]);
      StepActs(ex, ws[n - 1], ws[n], tenant, id, sds, manual);
    }
  }

  lemma AttemptKeepsQuiescent(ex: Executors, w: World, tenant: nat, id: nat, s: StageType, actor: string)
    requires Attemptable(w, tenant, id, s) && Quiescent(w)
    ensures Quiescent(Attempt(ex, w, tenant, id, s, actor).0.world)
  {
    AttemptEffect(ex, w, tenant, id, s, actor);
    var w' := Attempt(ex, w, tenant, id, s, actor).0.world;
    forall k, t | 0 <= k < |w'.assessments| ensures ProgressOf(w', k).Status(t) != StageStatus.Running {
      assert ProgressOf(w, k).Status(t) != StageStatus.Running;
    }
  }

  lemma AttemptKeepsSound(ex: Executors, w: World, tenant: nat, id: nat, s: StageType, actor: string)
    requires Attemptable(w, tenant, id, s) && Sound(ex, w)
    ensures var w' := Attempt(ex, w, tenant, id, s, actor).0.world; Sound(ex, w') && Later(ex, w, w')
  {
    AttemptActs(ex, w, tenant, id, s, actor);
    AttemptKeepsLedger(ex, w, tenant, id, s, actor);
    AttemptKeepsQuiescent(ex, w, tenant, id, s, actor);
  }

  lemma PlainKeepsEntries(h: History, a: AssessmentState, cmd: Command)
    requires Faithful(h, a) && !StageCommand(cmd) && a.Apply(cmd).Ok?
    ensures forall s :: a.Apply(cmd).value.state.progress.Get(s) == a.progress.Get(s)
  {
    match cmd
    case StartWorkflow(t, stages, actor) => FreshBinding(h, a, t, stages, actor);
    case _ =>
  }

  /** Binding a workflow replaces no progress. */
  lemma FreshBinding(h: History, a: AssessmentState, t: nat, stages: set<StageType>, actor: string)
    requires Faithful(h, a) && a.BindWorkflow(t, stages, actor).Ok?
    ensures forall s :: a.BindWorkflow(t, stages, actor).value.state.progress.Get(s) == a.progress.Get(s)
  {
    assert a.progress == NO_PROGRESS;
  }

  lemma PlainKeepsSound(ex: Executors, w: World, tenant: nat, id: nat, cmd: Command)
    requires Sound(ex, w) && !StageCommand(cmd) && Issue(w, tenant, id, cmd).Ok?
    ensures var w' := Issue(w, tenant, id, cmd).value; Sound(ex, w') && Later(ex, w, w')
  {
    var w' := Issue(w, tenant, id, cmd).value;
    ActKeeps(ex, w, Issued(tenant, id, cmd));
    PlainKeepsEntries(HistoryOf(w.outbox, AssessmentId(id)), w.assessments[id].state, cmd);
    EntriesKeepSound(ex, w, w');
  }

  lemma EntriesKeepSound(ex: Executors, w: World, w': World)
    requires Sound(ex, w) && Consistent(w') && Persists(w, w')
    requires w'.results == w.results && |w'.assessments| == |w.assessments|
    requires forall k, s :: 0 <= k < |w.assessments| ==> ProgressOf(w', k).Get(s) == ProgressOf(w, k).Get(s)
    ensures Sound(ex, w') && Later(ex, w, w')
  {
    forall k, s | 0 <= k < |w'.assessments| && s in ex.analysis
      ensures LedgerMatches(w'.results, w'.assessments[k].state.tenant, k, ProgressOf(w', k).Get(s))
    {
      assert StatePersists(w.assessments[k].state, w'.assessments[k].state);
      assert LedgerMatches(w.results, w.assessments[k].state.tenant, k, ProgressOf(w, k).Get(s));
    }
    forall k | 0 <= k < |w'.results| ensures Placed(ex, w', w'.results[k]) {
      assert Placed(ex, w, w.results[k]);
      var id := w.results[k].assessment;
      assert StatePersists(w.assessments[id].state, w'.assessments[id].state);
    }
    forall k, s | 0 <= k < |w'.assessments| ensures ProgressOf(w', k).Status(s) != StageStatus.Running {
      assert ProgressOf(w, k).Status(s) != StageStatus.Running;
    }
  }

  lemma {:induction false} NoRows(rs: seq<StageResult>, tenant: nat, id: nat, s: StageType)
    requires forall k :: 0 <= k < |rs| ==> rs[k].assessment != id
    ensures RowsFor(rs, tenant, id, s) == [] && Latest(rs, tenant, id, s) == None
  {
    if rs != [] { NoRows(rs[..|rs| - 1], tenant, id, s); }
  }

  lemma CreateKeepsSound(ex: Executors, w: World, tenant: nat, name: string, hazard: HazardType, actor: string)
    requires Sound(ex, w) && CreateAssessment(w, tenant, name, hazard, actor).Ok?
    ensures var w' := CreateAssessment(w, tenant, name, hazard, actor).value; Sound(ex, w') && Later(ex, w, w')
  {
    var w' := CreateAssessment(w, tenant, name, hazard, actor).value;
    ActKeeps(ex, w, Creation(tenant, name, hazard, actor));
    var n := |w.assessments|;
    forall k | 0 <= k < |w.results| ensures Placed(ex, w', w'.results[k]) && w.results[k].assessment != n {
      assert Placed(ex, w, w.results[k]);
    }
    forall k, s | 0 <= k < |w'.assessments| && s in ex.analysis
      ensures LedgerMatches(w'.results, w'.assessments[k].state.tenant, k, ProgressOf(w', k).Get(s))
    {
      if k == n { NoRows(w.results, tenant, n, s); }
      else { assert LedgerMatches(w.results, w.assessments[k].state.tenant, k, ProgressOf(w, k).Get(s)); }
    }
    forall k, s | 0 <= k < |w'.assessments| ensures ProgressOf(w', k).Status(s) != StageStatus.Running {
      if k < n { assert ProgressOf(w, k).Status(s) != StageStatus.Running; }
    }
  }

  // ---- Whole runs ----

  lemma LaterRefl(ex: Executors, w: World)
    ensures Later(ex, w, w)
  {}

  lemma {:induction false} PathKeepsSound(ex: Executors, tenant: nat, id: nat, sds: seq<StageDefinition>,
                                          manual: set<StageType>, ws: seq<World>)
    requires Path(ex, tenant, id, sds, manual, ws) && Sound(ex, ws[0])
    ensures Sound(ex, ws[|ws| - 1]) && Later(ex, ws[0], ws[|ws| - 1])
  {
    if |ws| > 1 {
      var n := |ws| - 1;
      LastStep(ex, tenant, id, sds, manual, ws);
      PathKeepsSound(ex, tenant, id, sds, manual, ws[..n]);
      StepKeepsSound(ex, ws[n - 1], ws[n], tenant, id, sds, manual);
      LaterJoins(ex, ws[0], ws[n - 1], ws[n]);
    } else {
      LaterRefl(ex, ws[0]);
    }
  }

  lemma StepKeepsSound(ex: Executors, w: World, w': World, tenant: nat, id: nat, sds: seq<StageDefinition>, manual: set<StageType>)
    requires EngineStep(ex, w, w', tenant, id, sds, manual) && Sound(ex, w)
    ensures Sound(ex, w') && Later(ex, w, w')
  {
    if LegalAdvance(w, w', tenant, id, sds) {
      var t := w.assessments[id].state.template.value;
      PlainKeepsSound(ex, w, tenant, id, AdvancePastRunning(Types(w.templates[t].stages), SYSTEM_ACTOR));
    } else {
      var s, actor :| LegalAttempt(ex, w, w', tenant, id, sds, manual, s, actor);
      AttemptKeepsSound(ex, w, tenant, id, s, actor);
    }
  }

  /** A trigger on an assessment without a workflow is a single attempt. */
  lemma UnboundTrigger(ex: Executors, w: World, tenant: nat, id: nat, s: StageType, actor: string)
    requires BoundStages(w, id).None?
    ensures Execute(ex, w, tenant, id, s, actor) == Attempt(ex, w, tenant, id, s, actor).0
  {
    AttemptEffect(ex, w, tenant, id, s, actor);
  }

  lemma TriggerKeepsSound(ex: Executors, w: World, tenant: nat, id: nat, s: StageType, actor: string)
    requires Sound(ex, w)
    ensures var r := Execute(ex, w, tenant, id, s, actor);
      && Sound(ex, r.world) && Later(ex, w, r.world)
      && (r.error.Some? <==> !Attemptable(w, tenant, id, s)) && (r.error.Some? ==> r.world == w)
  {
    AttemptEffect(ex, w, tenant, id, s, actor);
    LaterRefl(ex, w);
    if Attemptable(w, tenant, id, s) {
      if BoundStages(w, id).None? {
        UnboundTrigger(ex, w, tenant, id, s, actor);
        AttemptKeepsSound(ex, w, tenant, id, s, actor);
      } else {
        var sds := BoundStages(w, id).value;
        var ws := ExecutePath(ex, w, tenant, id, s, actor, sds, {s});
        PathKeepsSound(ex, tenant, id, sds, {s}, ws);
      }
    }
  }

  lemma StartedActive(w: World, tenant: nat, id: nat, template: nat, actor: string)
    requires IssueStartWorkflow(w, tenant, id, template, actor).Ok?
    ensures var w' := IssueStartWorkflow(w, tenant, id, template, actor).value;
      var sds := w.templates[template].stages;
      && Active(w', tenant, id, sds)
      && w'.templates == w.templates && w'.results == w.results
      && w'.assessments == w.assessments[id := w'.assessments[id]]
      && w'.assessments[id].state == w.assessments[id].state.(status := Lifecycle.Running,
           template := Some(template), progress := Initialize(template, Types(sds)))
      && (forall s :: ProgressOf(w', id).Get(s) == FreshEntry(s))
  {}

  lemma StartKeepsSound(ex: Executors, w: World, tenant: nat, id: nat, template: nat, actor: string)
    requires Sound(ex, w)
    ensures var r := StartAll(ex, w, tenant, id, template, actor);
      && Sound(ex, r.world) && Later(ex, w, r.world)
      && (r.error.Some? <==> IssueStartWorkflow(w, tenant, id, template, actor).Err?) && (r.error.Some? ==> r.world == w)
  {
    LaterRefl(ex, w);
    if IssueStartWorkflow(w, tenant, id, template, actor).Ok? {
      var sds := w.templates[template].stages;
      var started := IssueStartWorkflow(w, tenant, id, template, actor).value;
      StartedActive(w, tenant, id, template, actor);
      PlainKeepsSound(ex, w, tenant, id, StartWorkflow(template, Types(sds), actor));
      var ws := DispatchPath(ex, started, tenant, id, sds, {});
      PathKeepsSound(ex, tenant, id, sds, {}, ws);
      LaterJoins(ex, w, started, Dispatch(ex, started, tenant, id).world);
    }
  }

  /** Each request keeps everything, and one that raises has changed nothing. */
  lemma ServeKeepsSound(ex: Executors, w: World, request: Request)
    requires Sound(ex, w)
    ensures var r := Serve(ex, w, request);
      Sound(ex, r.world) && Later(ex, w, r.world) && (r.error.Some? ==> r.world == w)
  {
    LaterRefl(ex, w);
    match request
    case Create(tenant, name, hazard, actor) =>
      if CreateAssessment(w, tenant, name, hazard, actor).Ok? {
        CreateKeepsSound(ex, w, tenant, name, hazard, actor);
      }
    case ChangeStatus(tenant, id, cmd) =>
      if Issue(w, tenant, id, cmd).Ok? {
        PlainKeepsSound(ex, w, tenant, id, cmd);
      }
    case BeginWorkflow(tenant, id, template, actor) => StartKeepsSound(ex, w, tenant, id, template, actor);
    case TriggerStage(tenant, id, s, actor) => TriggerKeepsSound(ex, w, tenant, id, s, actor);
  }

  lemma {:induction false} SeriesKeepsSound(ex: Executors, w: World, requests: seq<Request>)
    requires Sound(ex, w)
    ensures Sound(ex, ServeAll(ex, w, requests)) && Later(ex, w, ServeAll(ex, w, requests))
  {
    if requests == [] {
      LaterRefl(ex, w);
    } else {
      var n := |requests| - 1;
      SeriesKeepsSound(ex, w, requests[..n]);
      var v := ServeAll(ex, w, requests[..n]);
      ServeKeepsSound(ex, v, requests[n]);
      LaterJoins(ex, w, v, Serve(ex, v, requests[n]).world);
    }
  }

  /** Between any two requests of any series: no stage is running, the log rebuilds every assessment,
      the ledger holds exactly the evidence the workflow claims, and no evidence has gone stale. */
  lemma EverySeries(ex: Executors, templates: seq<Template>, before: seq<Request>, after: seq<Request>)
    ensures var w := ServeAll(ex, Empty(templates), before);
      var w' := ServeAll(ex, w, after);
      Sound(ex, w) && Sound(ex, w') && Later(ex, w, w')
  {
    EmptyConsistent(templates);
    SeriesKeepsSound(ex, Empty(templates), before);
    SeriesKeepsSound(ex, ServeAll(ex, Empty(templates), before), after);
  }

  /** So for a stage of the analysis pipeline the versions are exactly 1..attempts; a row is COMPLETE only
      as the last one of a COMPLETE stage, whose entry then names it; and it is the one read as latest. */
  lemma {:induction false} EvidenceMatchesWorkflow(ex: Executors, templates: seq<Template>, requests: seq<Request>, id: nat, s: StageType)
    requires s in ex.analysis && id < |ServeAll(ex, Empty(templates), requests).assessments|
    ensures var w := ServeAll(ex, Empty(templates), requests);
      LedgerMatches(w.results, w.assessments[id].state.tenant, id, ProgressOf(w, id).Get(s))
  {
    EmptyConsistent(templates);
    SeriesKeepsSound(ex, Empty(templates), requests);
  }

  /** A COMPLETE result with dependencies was computed from inputs that read the same at every later moment. */
  lemma {:induction false} EvidenceNeverStale(ex: Executors, templates: seq<Template>, before: seq<Request>, after: seq<Request>, k: nat)
    requires var w := ServeAll(ex, Empty(templates), before);
      k < |w.results| && w.results[k].Completed() && ex.dependencies(w.results[k].hazard, w.results[k].stage) != []
    ensures var w := ServeAll(ex, Empty(templates), before);
      var w' := ServeAll(ex, w, after);
      var row := w.results[k];
      && k < |w'.results| && w'.results[k] == row
      && CollectFor(ex, w.results, row).Some? && CollectFor(ex, w'.results, row) == CollectFor(ex, w.results, row)
      && exists seen :: ComputedFrom(ex, w.results[..k], row, CollectFor(ex, w.results, row).value, seen)
  {
    EverySeries(ex, templates, before, after);
    var w := ServeAll(ex, Empty(templates), before);
    assert Fresh(ex, w.results, k);
    var seen := FreshInputs(ex, w.results, k);
  }

  /** Every row there ever is, COMPLETE or FAILED, is what the ledger before it made it. */
  lemma {:induction false} EveryRowExplained(ex: Executors, templates: seq<Template>, requests: seq<Request>, k: nat)
    requires k < |ServeAll(ex, Empty(templates), requests).results|
    ensures var rs := ServeAll(ex, Empty(templates), requests).results; Explained(ex, rs[..k], rs[k])
  {
    EmptyConsistent(templates);
    SeriesKeepsSound(ex, Empty(templates), requests);
    assert Fresh(ex, ServeAll(ex, Empty(templates), requests).results, k);
  }
}
