/** What the assessment lifecycle guarantees across requests: its order, tenant isolation, and what
    VALIDATED does and does not mean. */
module LifecycleGuarantees {
  import opened Results
  import opened Stages
  import opened Templates
  import opened Assessments
  import opened Platform
  import opened Interleavings
  import opened Engine
  import opened EngineRuns
  import opened EngineTheorems
  import opened Requests
  import opened Scenarios
  import opened WorkflowGuarantees

  // ---- The order of the lifecycle ----

  /** The position of a status on the way from draft to archive. */
  function Rank(s: Lifecycle): int {
    match s
    case Draft => 0
    case Ready => 1
    case Running => 2
    case Validated => 3
    case Reported => 4
    case Archived => 5
    case Cancelled => 6
  }

  /** Each step goes to the next status on the way, or leaves it for good before the report. */
  lemma LifecycleIsLinear(from: Lifecycle, to: Lifecycle)
    ensures LegalTransition(from, to) <==>
      (Rank(to) == Rank(from) + 1 && to != Cancelled) || (to == Cancelled && Rank(from) <= 3)
  {}

  /** A command is refused or takes the lifecycle at most one step; stage commands leave it alone. */
  lemma CommandsStep(a: AssessmentState, cmd: Command)
    requires a.Apply(cmd).Ok?
    ensures var a' := a.Apply(cmd).value.state;
      if StageCommand(cmd) then a'.status == a.status == Lifecycle.Running
      else LegalTransition(a.status, a'.status)
  {}

  /** A workflow start is accepted exactly for a visible READY assessment and a published template of
      its own hazard type. */
  lemma StartAcceptedIff(w: World, tenant: nat, id: nat, template: nat, actor: string)
    ensures IssueStartWorkflow(w, tenant, id, template, actor).Ok? <==>
      && Visible(w, tenant, id) && w.assessments[id].state.status == Ready
      && template < |w.templates| && w.templates[template].status == Published
      && w.templates[template].hazard == w.assessments[id].state.hazard
  {}

  // ---- Tenants ----

  /** A path of the engine's touches one assessment only. */
  predicate OthersUntouched(w: World, w': World, id: nat) {
    && |w.assessments| == |w'.assessments| && w'.templates == w.templates
    && (forall k :: 0 <= k < |w.assessments| && k != id ==> w'.assessments[k] == w.assessments[k])
  }

  lemma TriggerTouchesOne(ex: Executors, w: World, tenant: nat, id: nat, s: StageType, actor: string)
    ensures OthersUntouched(w, Execute(ex, w, tenant, id, s, actor).world, id)
  {
    AttemptEffect(ex, w, tenant, id, s, actor);
    if Attemptable(w, tenant, id, s) {
      if BoundStages(w, id).None? {
        UnboundTrigger(ex, w, tenant, id, s, actor);
      } else {
        var sds := BoundStages(w, id).value;
        var ws := ExecutePath(ex, w, tenant, id, s, actor, sds, {s});
        PathEvolves(ex, tenant, id, sds, {s}, ws);
      }
    }
  }

  lemma StartTouchesOne(ex: Executors, w: World, tenant: nat, id: nat, template: nat, actor: string)
    ensures OthersUntouched(w, StartAll(ex, w, tenant, id, template, actor).world, id)
  {
    if IssueStartWorkflow(w, tenant, id, template, actor).Ok? {
      var sds := w.templates[template].stages;
      StartedActive(w, tenant, id, template, actor);
      var started := IssueStartWorkflow(w, tenant, id, template, actor).value;
      var ws := DispatchPath(ex, started, tenant, id, sds, {});
      PathEvolves(ex, tenant, id, sds, {}, ws);
    }
  }

  /** No request of one tenant changes an assessment of another. */
  lemma TenantsIsolated(ex: Executors, w: World, request: Request, k: nat)
    requires k < |w.assessments| && w.assessments[k].state.tenant != request.tenant
    ensures var w' := Serve(ex, w, request).world; k < |w'.assessments| && w'.assessments[k] == w.assessments[k]
  {
    match request
    case Create(tenant, name, hazard, actor) =>
    case ChangeStatus(tenant, id, cmd) =>
    case BeginWorkflow(tenant, id, template, actor) => StartTouchesOne(ex, w, tenant, id, template, actor);
    case TriggerStage(tenant, id, s, actor) =>
      TriggerTouchesOne(ex, w, tenant, id, s, actor);
      AttemptEffect(ex, w, tenant, id, s, actor);
  }

  // ---- What VALIDATED means ----

  /** From VALIDATED on, every stage of the bound template is COMPLETE. */
  predicate ProperlyValidated(w: World, id: nat) {
    id < |w.assessments| && w.assessments[id].state.status in {Validated, Reported, Archived} ==>
      BoundStages(w, id).Some? && ProgressOf(w, id).AllComplete(Types(BoundStages(w, id).value))
  }

  predicate ForcesValidated(request: Request, id: nat) {
    request.ChangeStatus? && request.id == id && request.cmd.MarkValidated?
  }

  lemma StartStaysProper(ex: Executors, w: World, tenant: nat, id: nat, template: nat, actor: string)
    requires ProperlyValidated(w, id)
    ensures ProperlyValidated(StartAll(ex, w, tenant, id, template, actor).world, id)
  {
    if IssueStartWorkflow(w, tenant, id, template, actor).Ok? {
      StartedActive(w, tenant, id, template, actor);
      var started := IssueStartWorkflow(w, tenant, id, template, actor).value;
      var ws := DispatchPath(ex, started, tenant, id, w.templates[template].stages, {});
    }
  }

  lemma TriggerStaysProper(ex: Executors, w: World, tenant: nat, id: nat, s: StageType, actor: string)
    requires ProperlyValidated(w, id)
    ensures ProperlyValidated(Execute(ex, w, tenant, id, s, actor).world, id)
  {
    AttemptEffect(ex, w, tenant, id, s, actor);
    if Attemptable(w, tenant, id, s) {
      if BoundStages(w, id).None? {
        UnboundTrigger(ex, w, tenant, id, s, actor);
      } else {
        ExecuteLive(ex, w, tenant, id, s, actor, BoundStages(w, id).value);
      }
    }
  }

  lemma ChangeStaysProper(w: World, tenant: nat, id: nat, cmd: LifecycleCommand, k: nat)
    requires ProperlyValidated(w, k) && Issue(w, tenant, id, cmd).Ok? && !(id == k && cmd.MarkValidated?)
    ensures ProperlyValidated(Issue(w, tenant, id, cmd).value, k)
  {}

  lemma ServeStaysProper(ex: Executors, w: World, request: Request, id: nat)
    requires ProperlyValidated(w, id) && !ForcesValidated(request, id)
    ensures ProperlyValidated(Serve(ex, w, request).world, id)
  {
    match request
    case Create(tenant, name, hazard, actor) =>
    case ChangeStatus(tenant, k, cmd) =>
      if Issue(w, tenant, k, cmd).Ok? { ChangeStaysProper(w, tenant, k, cmd, id); }
    case BeginWorkflow(tenant, k, template, actor) =>
      if k == id { StartStaysProper(ex, w, tenant, k, template, actor); }
      else { StartTouchesOne(ex, w, tenant, k, template, actor); }
    case TriggerStage(tenant, k, s, actor) =>
      if k == id { TriggerStaysProper(ex, w, tenant, k, s, actor); }
      else { TriggerTouchesOne(ex, w, tenant, k, s, actor); }
  }

  /** After every series in which nobody issued the plain validate command on an assessment, VALIDATED,
      REPORTED or ARCHIVED means that every stage of its workflow is COMPLETE. */
  lemma {:induction false} ValidatedMeansComplete(ex: Executors, templates: seq<Template>, requests: seq<Request>, id: nat)
    requires forall i :: 0 <= i < |requests| ==> !ForcesValidated(requests[i], id)
    ensures ProperlyValidated(ServeAll(ex, Empty(templates), requests), id)
  {
    if requests != [] {
      var n := |requests| - 1;
      ValidatedMeansComplete(ex, templates, requests[..n], id);
      ServeStaysProper(ex, ServeAll(ex, Empty(templates), requests[..n]), requests[n], id);
    }
  }

  // ---- Exactly when VALIDATED means complete ----

  /** A workflow is bound and all its stages are COMPLETE. */
  predicate AllStagesDone(w: World, id: nat) {
    BoundStages(w, id).Some? && ProgressOf(w, id).AllComplete(Types(BoundStages(w, id).value))
  }

  predicate PastRunning(status: Lifecycle) {
    status in {Validated, Reported, Archived}
  }

  /** Some plain validate command on the assessment was accepted. */
  ghost predicate WasForced(ex: Executors, templates: seq<Template>, requests: seq<Request>, id: nat) {
    requests != []
    && (var n := |requests| - 1;
        || WasForced(ex, templates, requests[..n], id)
        || Forces(ex, ServeAll(ex, Empty(templates), requests[..n]), requests[n], id))
  }

  ghost predicate Forces(ex: Executors, w: World, request: Request, id: nat) {
    ForcesValidated(request, id) && Serve(ex, w, request).error == None
  }

  /** What holds of an assessment between requests, according to whether it was forced. */
  predicate Tracked(w: World, id: nat, forced: bool) {
    if id >= |w.assessments| then !forced
    else
      match w.assessments[id].state.status
      case Draft => !forced && w.assessments[id].state.template == None
      case Ready => !forced && w.assessments[id].state.template == None
      case Running => !forced && !AllStagesDone(w, id)
      case Cancelled => forced ==> !AllStagesDone(w, id)
      case _ => forced <==> !AllStagesDone(w, id)
  }

  predicate NoEmptyTemplate(templates: seq<Template>) {
    forall t <- templates :: t.stages != []
  }

  /** A started workflow is bound, and VALIDATED exactly when all its stages are COMPLETE. */
  lemma StartedStatus(ex: Executors, w: World, tenant: nat, id: nat, template: nat, actor: string)
    requires IssueStartWorkflow(w, tenant, id, template, actor).Ok? && w.templates[template].stages != []
    ensures var w' := StartAll(ex, w, tenant, id, template, actor).world;
      && id < |w'.assessments|
      && w'.assessments[id].state.status == (if AllStagesDone(w', id) then Validated else Lifecycle.Running)
  {
    StartedWorkflowSettles(ex, w, tenant, id, template, actor);
    StartedBound(ex, w, tenant, id, template, actor);
  }

  lemma StartedBound(ex: Executors, w: World, tenant: nat, id: nat, template: nat, actor: string)
    requires IssueStartWorkflow(w, tenant, id, template, actor).Ok?
    ensures BoundStages(StartAll(ex, w, tenant, id, template, actor).world, id) == Some(w.templates[template].stages)
  {
    StartedActive(w, tenant, id, template, actor);
    DispatchGrows(ex, IssueStartWorkflow(w, tenant, id, template, actor).value, tenant, id, w.templates[template].stages);
  }

  lemma StartTracked(ex: Executors, w: World, tenant: nat, id: nat, template: nat, actor: string, forced: bool)
    requires Tracked(w, id, forced) && NoEmptyTemplate(w.templates)
    ensures Tracked(StartAll(ex, w, tenant, id, template, actor).world, id, forced)
  {
    if IssueStartWorkflow(w, tenant, id, template, actor).Ok? {
      assert w.templates[template] in w.templates;
      StartedStatus(ex, w, tenant, id, template, actor);
      StartAcceptedIff(w, tenant, id, template, actor);
    }
  }

  lemma TriggerTracked(ex: Executors, w: World, tenant: nat, id: nat, s: StageType, actor: string, forced: bool)
    requires Tracked(w, id, forced)
    ensures Tracked(Execute(ex, w, tenant, id, s, actor).world, id, forced)
  {
    AttemptEffect(ex, w, tenant, id, s, actor);
    if Attemptable(w, tenant, id, s) {
      if BoundStages(w, id).None? {
        UnboundTrigger(ex, w, tenant, id, s, actor);
      } else {
        var sds := BoundStages(w, id).value;
        ExecuteGrows(ex, w, tenant, id, s, actor, sds);
        ExecuteSettles(ex, w, tenant, id, s, actor, sds);
      }
    }
  }

  lemma ChangeTracked(w: World, tenant: nat, id: nat, cmd: LifecycleCommand, forced: bool)
    requires Tracked(w, id, forced) && Issue(w, tenant, id, cmd).Ok?
    ensures Tracked(Issue(w, tenant, id, cmd).value, id, forced || cmd.MarkValidated?)
  {
    var w' := Issue(w, tenant, id, cmd).value;
    assert AllStagesDone(w', id) <==> AllStagesDone(w, id);
  }

  lemma SameTracked(w: World, w': World, id: nat, forced: bool)
    requires Tracked(w, id, forced) && w'.templates == w.templates
    requires |w'.assessments| == |w.assessments| && (id < |w.assessments| ==> w'.assessments[id] == w.assessments[id])
    ensures Tracked(w', id, forced)
  {}

  lemma ServeTracked(ex: Executors, w: World, request: Request, id: nat, forced: bool)
    requires Tracked(w, id, forced) && NoEmptyTemplate(w.templates)
    ensures Tracked(Serve(ex, w, request).world, id, forced || Forces(ex, w, request, id))
    ensures Serve(ex, w, request).world.templates == w.templates
  {
    match request
    case Create(tenant, name, hazard, actor) =>
    case ChangeStatus(tenant, k, cmd) =>
      if Issue(w, tenant, k, cmd).Ok? {
        if k == id { ChangeTracked(w, tenant, k, cmd, forced); }
        else { SameTracked(w, Issue(w, tenant, k, cmd).value, id, forced); }
      }
    case BeginWorkflow(tenant, k, template, actor) =>
      StartTouchesOne(ex, w, tenant, k, template, actor);
      if k == id { StartTracked(ex, w, tenant, k, template, actor, forced); }
      else { SameTracked(w, StartAll(ex, w, tenant, k, template, actor).world, id, forced); }
    case TriggerStage(tenant, k, s, actor) =>
      TriggerTouchesOne(ex, w, tenant, k, s, actor);
      if k == id { TriggerTracked(ex, w, tenant, k, s, actor, forced); }
      else { SameTracked(w, Execute(ex, w, tenant, k, s, actor).world, id, forced); }
  }

  lemma {:induction false} SeriesTracked(ex: Executors, templates: seq<Template>, requests: seq<Request>, id: nat)
    requires NoEmptyTemplate(templates)
    ensures var w := ServeAll(ex, Empty(templates), requests);
      w.templates == templates && Tracked(w, id, WasForced(ex, templates, requests, id))
  {
    if requests != [] {
      var n := |requests| - 1;
      SeriesTracked(ex, templates, requests[..n], id);
      ServeTracked(ex, ServeAll(ex, Empty(templates), requests[..n]), requests[n], id,
                   WasForced(ex, templates, requests[..n], id));
    }
  }

  /** After every series, an assessment that got past RUNNING has all its stages COMPLETE if and only if no
      plain validate command on it was ever accepted. */
  lemma ValidatedCompleteIff(ex: Executors, templates: seq<Template>, requests: seq<Request>, id: nat)
    requires NoEmptyTemplate(templates)
    requires var w := ServeAll(ex, Empty(templates), requests);
      id < |w.assessments| && PastRunning(w.assessments[id].state.status)
    ensures AllStagesDone(ServeAll(ex, Empty(templates), requests), id) <==> !WasForced(ex, templates, requests, id)
  {
    SeriesTracked(ex, templates, requests, id);
  }

  /** Creating, readying, starting and validating an assessment, without a workflow. */
  function ForcingRequests(): seq<Request> {
    READY_ASSESSMENT + [ChangeStatus(0, 0, Start("u"))] + [ChangeStatus(0, 0, MarkValidated("u"))]
  }

  /** Four plain requests validate an assessment that never had a workflow. */
  lemma ForcedValidation(ex: Executors, templates: seq<Template>)
    ensures !ProperlyValidated(ServeAll(ex, Empty(templates), ForcingRequests()), 0)
  {
    ReadyAssessment(ex, templates);
    StatusAdded(ex, templates, READY_ASSESSMENT, Start("u"), Ready, Lifecycle.Running, 1);
    StatusAdded(ex, templates, READY_ASSESSMENT + [ChangeStatus(0, 0, Start("u"))], MarkValidated("u"),
                Lifecycle.Running, Validated, 2);
  }
}
