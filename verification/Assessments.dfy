/** The assessment aggregate: its lifecycle, its commands and the events they emit. */
module Assessments {
  import opened Results
  import opened Stages

  datatype HazardType = Flood | Wildfire | Drought | Landslide

  datatype Lifecycle = Draft | Ready | Running | Validated | Reported | Archived | Cancelled

  predicate LegalTransition(from: Lifecycle, to: Lifecycle) {
    match from
    case Draft => to == Ready || to == Cancelled
    case Ready => to == Lifecycle.Running || to == Cancelled
    case Running => to == Validated || to == Cancelled
    case Validated => to == Reported || to == Cancelled
    case Reported => to == Archived
    case Archived => false
    case Cancelled => false
  }

  datatype Event =
    | Created(tenant: nat, hazard: HazardType, name: string, actor: string)
    | StageAdvanced(from: Lifecycle, to: Lifecycle, actor: string)
    | ArchivedBy(actor: string)
    | CancelledFor(reason: string, actor: string)
    | WorkflowStarted(template: nat, stages: seq<StageType>, actor: string)
    | ExecutionStarted(stage: StageType, attempt: nat, actor: string)
    | ExecutionCompleted(stage: StageType, ref: Option<ResultRef>)
    | ExecutionFailed(stage: StageType, attempt: nat, error: string)
    | ResultComputed(stage: StageType, version: nat)
    | ResultFailed(stage: StageType, version: nat)

  datatype Error =
    | NotFound
    | TemplateNotFound
    | Guard(why: string)
    | BlankText
    | IllegalTransition(from: Lifecycle, to: Lifecycle)
    | NotRunning(status: Lifecycle, stage: StageType)
    | IllegalStageStep(stage: StageType, current: StageStatus, wanted: StageStatus)
    | WorkflowNotComplete
    | ConcurrentUpdate

  datatype Command =
    | MarkReady(actor: string)
    | Start(actor: string)
    | MarkValidated(actor: string)
    | MarkReported(actor: string)
    | Archive(actor: string)
    | Cancel(reason: string, actor: string)
    | StartWorkflow(template: nat, stages: set<StageType>, actor: string)
    | StartStage(stage: StageType, actor: string)
    | CompleteStage(stage: StageType, ref: Option<ResultRef>, actor: string)
    | FailStage(stage: StageType, error: string, actor: string)
    | AdvancePastRunning(required: set<StageType>, actor: string)

  datatype Change = Change(state: AssessmentState, events: seq<Event>)

  datatype AssessmentState = AssessmentState(
    tenant: nat,
    name: string,
    hazard: HazardType,
    createdBy: string,
    status: Lifecycle,
    cancellationReason: string,
    template: Option<nat>,
    progress: WorkflowProgress)
  {
    function Transition(to: Lifecycle, actor: string): Result<Change, Error> {
      if LegalTransition(status, to)
      then Ok(Change(this.(status := to), [StageAdvanced(status, to, actor)]))
      else Err(IllegalTransition(status, to))
    }

    function ToArchived(actor: string): Result<Change, Error> {
      if LegalTransition(status, Archived)
      then Ok(Change(this.(status := Archived), [ArchivedBy(actor)]))
      else Err(IllegalTransition(status, Archived))
    }

    function ToCancelled(reason: string, actor: string): Result<Change, Error> {
      if !LegalTransition(status, Cancelled) then Err(IllegalTransition(status, Cancelled))
      else if Blank(reason) then Err(BlankText)
      else Ok(Change(this.(status := Cancelled, cancellationReason := reason), [CancelledFor(reason, actor)]))
    }

    function BindWorkflow(t: nat, stages: set<StageType>, actor: string): Result<Change, Error> {
      match Transition(Lifecycle.Running, actor)
      case Err(e) => Err(e)
      case Ok(c) =>
        Ok(Change(c.state.(template := Some(t), progress := Initialize(t, stages)),
                  c.events + [WorkflowStarted(t, Sorted(stages), actor)]))
    }

    /** The step all three stage commands share. */
    function StageStep(s: StageType, to: StageStatus, ref: Option<ResultRef>, error: Option<string>)
      : Result<AssessmentState, Error>
    {
      if status != Lifecycle.Running then Err(NotRunning(status, s))
      else
        match progress.Get(s).AdvanceTo(to, ref, error)
        case None => Err(IllegalStageStep(s, progress.Status(s), to))
        case Some(entry) => Ok(this.(progress := progress.WithEntry(entry)))
    }

    function BeginStage(s: StageType, actor: string): Result<Change, Error> {
      match StageStep(s, StageStatus.Running, None, None)
      case Err(e) => Err(e)
      case Ok(a) => Ok(Change(a, [ExecutionStarted(s, a.progress.Get(s).attempts, actor)]))
    }

    function FinishStage(s: StageType, ref: Option<ResultRef>, actor: string): Result<Change, Error> {
      match StageStep(s, StageStatus.Complete, ref, None)
      case Err(e) => Err(e)
      case Ok(a) => Ok(Change(a, [ExecutionCompleted(s, ref)]))
    }

    function AbortStage(s: StageType, error: string, actor: string): Result<Change, Error> {
      match StageStep(s, StageStatus.Failed, None, Some(error))
      case Err(e) => Err(e)
      case Ok(a) => Ok(Change(a, [ExecutionFailed(s, a.progress.Get(s).attempts, error)]))
    }

    function Advance(required: set<StageType>, actor: string): Result<Change, Error> {
      if !progress.AllComplete(required) then Err(WorkflowNotComplete)
      else Transition(Validated, actor)
    }

    function Apply(cmd: Command): Result<Change, Error> {
      match cmd
      case MarkReady(actor) => Transition(Ready, actor)
      case Start(actor) => Transition(Lifecycle.Running, actor)
      case MarkValidated(actor) => Transition(Validated, actor)
      case MarkReported(actor) => Transition(Reported, actor)
      case Archive(actor) => ToArchived(actor)
      case Cancel(reason, actor) => ToCancelled(reason, actor)
      case StartWorkflow(t, stages, actor) => BindWorkflow(t, stages, actor)
      case StartStage(s, actor) => BeginStage(s, actor)
      case CompleteStage(s, ref, actor) => FinishStage(s, ref, actor)
      case FailStage(s, error, actor) => AbortStage(s, error, actor)
      case AdvancePastRunning(required, actor) => Advance(required, actor)
    }
  }

  function NewState(tenant: nat, name: string, hazard: HazardType, actor: string): AssessmentState {
    AssessmentState(tenant, name, hazard, actor, Draft, "", None, NO_PROGRESS)
  }

  /** A refused command leaves the aggregate as it was; an accepted one moves it to the
      specified state and hands back the specified events. */
  predicate Done(spec: Result<Change, Error>, before: AssessmentState, after: AssessmentState,
                 r: Result<seq<Event>, Error>)
  {
    match spec
    case Ok(c) => after == c.state && r == Ok(c.events)
    case Err(e) => after == before && r == Err(e)
  }

  /** The aggregate as the handlers hold it in memory: loaded, changed in place, saved. */
  class Assessment {
    const tenant: nat
    const name: string
    const hazard: HazardType
    const createdBy: string
    const version: nat
    var status: Lifecycle
    var cancellationReason: string
    var template: Option<nat>
    var progress: WorkflowProgress

    function State(): AssessmentState
      reads this
    {
      AssessmentState(tenant, name, hazard, createdBy, status, cancellationReason, template, progress)
    }

    constructor Load(a: AssessmentState, version: nat)
      ensures State() == a && this.version == version
    {
      tenant, name, hazard, createdBy := a.tenant, a.name, a.hazard, a.createdBy;
      this.version := version;
      status, cancellationReason := a.status, a.cancellationReason;
      template, progress := a.template, a.progress;
    }

    method ChangeStatus(to: Lifecycle, actor: string) returns (r: Result<seq<Event>, Error>)
      modifies this
      ensures Done(old(State()).Transition(to, actor), old(State()), State(), r)
    {
      if !LegalTransition(status, to) {
        return Err(IllegalTransition(status, to));
      }
      var from := status;
      status := to;
      return Ok([StageAdvanced(from, to, actor)]);
    }

    method MoveToArchive(actor: string) returns (r: Result<seq<Event>, Error>)
      modifies this
      ensures Done(old(State()).ToArchived(actor), old(State()), State(), r)
    {
      if !LegalTransition(status, Archived) {
        return Err(IllegalTransition(status, Archived));
      }
      status := Archived;
      return Ok([ArchivedBy(actor)]);
    }

    method CancelFor(reason: string, actor: string) returns (r: Result<seq<Event>, Error>)
      modifies this
      ensures Done(old(State()).ToCancelled(reason, actor), old(State()), State(), r)
    {
      if !LegalTransition(status, Cancelled) {
        return Err(IllegalTransition(status, Cancelled));
      }
      if Blank(reason) {
        return Err(BlankText);
      }
      status := Cancelled;
      cancellationReason := reason;
      return Ok([CancelledFor(reason, actor)]);
    }

    method StartWorkflowOn(t: nat, stages: set<StageType>, actor: string) returns (r: Result<seq<Event>, Error>)
      modifies this
      ensures Done(old(State()).BindWorkflow(t, stages, actor), old(State()), State(), r)
    {
      var moved := ChangeStatus(Lifecycle.Running, actor);
      match moved
      case Err(e) => return Err(e);
      case Ok(events) =>
        template := Some(t);
        progress := Initialize(t, stages);
        return Ok(events + [WorkflowStarted(t, Sorted(stages), actor)]);
    }

    method StartStageRun(s: StageType, actor: string) returns (r: Result<seq<Event>, Error>)
      modifies this
      ensures Done(old(State()).BeginStage(s, actor), old(State()), State(), r)
    {
      if status != Lifecycle.Running {
        return Err(NotRunning(status, s));
      }
      var next := progress.Get(s).AdvanceTo(StageStatus.Running, None, None);
      match next
      case None => return Err(IllegalStageStep(s, progress.Status(s), StageStatus.Running));
      case Some(entry) =>
        progress := progress.WithEntry(entry);
        return Ok([ExecutionStarted(s, entry.attempts, actor)]);
    }

    method CompleteStageRun(s: StageType, ref: Option<ResultRef>, actor: string) returns (r: Result<seq<Event>, Error>)
      modifies this
      ensures Done(old(State()).FinishStage(s, ref, actor), old(State()), State(), r)
    {
      if status != Lifecycle.Running {
        return Err(NotRunning(status, s));
      }
      var next := progress.Get(s).AdvanceTo(StageStatus.Complete, ref, None);
      match next
      case None => return Err(IllegalStageStep(s, progress.Status(s), StageStatus.Complete));
      case Some(entry) =>
        progress := progress.WithEntry(entry);
        return Ok([ExecutionCompleted(s, ref)]);
    }

    method FailStageRun(s: StageType, error: string, actor: string) returns (r: Result<seq<Event>, Error>)
      modifies this
      ensures Done(old(State()).AbortStage(s, error, actor), old(State()), State(), r)
    {
      if status != Lifecycle.Running {
        return Err(NotRunning(status, s));
      }
      var next := progress.Get(s).AdvanceTo(StageStatus.Failed, None, Some(error));
      match next
      case None => return Err(IllegalStageStep(s, progress.Status(s), StageStatus.Failed));
      case Some(entry) =>
        progress := progress.WithEntry(entry);
        return Ok([ExecutionFailed(s, entry.attempts, error)]);
    }

    method AdvanceIfComplete(required: set<StageType>, actor: string) returns (r: Result<seq<Event>, Error>)
      modifies this
      ensures Done(old(State()).Advance(required, actor), old(State()), State(), r)
    {
      if !progress.AllComplete(required) {
        return Err(WorkflowNotComplete);
      }
      r := ChangeStatus(Validated, actor);
    }

    method Execute(cmd: Command) returns (r: Result<seq<Event>, Error>)
      modifies this
      ensures Done(old(State()).Apply(cmd), old(State()), State(), r)
    {
      match cmd
      case MarkReady(actor) => r := ChangeStatus(Ready, actor);
      case Start(actor) => r := ChangeStatus(Lifecycle.Running, actor);
      case MarkValidated(actor) => r := ChangeStatus(Validated, actor);
      case MarkReported(actor) => r := ChangeStatus(Reported, actor);
      case Archive(actor) => r := MoveToArchive(actor);
      case Cancel(reason, actor) => r := CancelFor(reason, actor);
      case StartWorkflow(t, stages, actor) => r := StartWorkflowOn(t, stages, actor);
      case StartStage(s, actor) => r := StartStageRun(s, actor);
      case CompleteStage(s, ref, actor) => r := CompleteStageRun(s, ref, actor);
      case FailStage(s, error, actor) => r := FailStageRun(s, error, actor);
      case AdvancePastRunning(required, actor) => r := AdvanceIfComplete(required, actor);
    }
  }
}
