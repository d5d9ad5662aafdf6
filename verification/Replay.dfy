/** Reading an assessment back from its event log, and counting what the log records. */
module Replay {
  import opened Results
  import opened Stages
  import opened Assessments

  type History = seq<Event>

  function SetEntry(a: AssessmentState, e: StageEntry): AssessmentState {
    a.(progress := a.progress.WithEntry(e))
  }

  /** One event, read from its payload alone: no legality check, no counting. */
  function ReplayOne(a: AssessmentState, e: Event): AssessmentState {
    match e
    case StageAdvanced(_, to, _) => a.(status := to)
    case ArchivedBy(_) => a.(status := Archived)
    case CancelledFor(reason, _) => a.(status := Cancelled, cancellationReason := reason)
    case WorkflowStarted(t, stages, _) =>
      a.(template := Some(t), progress := WorkflowProgress(Some(t), FreshEntries(stages)))
    case ExecutionStarted(s, attempt, _) =>
      SetEntry(a, a.progress.Get(s).(status := StageStatus.Running, attempts := attempt, lastError := None))
    case ExecutionCompleted(s, ref) =>
      SetEntry(a, a.progress.Get(s).(status := StageStatus.Complete, resultRef := ref))
    case ExecutionFailed(s, attempt, error) =>
      SetEntry(a, a.progress.Get(s).(status := StageStatus.Failed, attempts := attempt, lastError := Some(error)))
    case _ => a
  }

  /** The state a log describes; None until the creation event. */
  function Rebuild(h: History): Option<AssessmentState> {
    if h == [] then None
    else
      var e := h[|h| - 1];
      match Rebuild(h[..|h| - 1])
      case None => if e.Created? then Some(NewState(e.tenant, e.name, e.hazard, e.actor)) else None
      case Some(a) => Some(ReplayOne(a, e))
  }

  datatype Tag = StartOf(s: StageType) | CompletionOf(s: StageType) | FailureOf(s: StageType) | Binding

  predicate Tagged(e: Event, tag: Tag) {
    match tag
    case StartOf(s) => e.ExecutionStarted? && e.stage == s
    case CompletionOf(s) => e.ExecutionCompleted? && e.stage == s
    case FailureOf(s) => e.ExecutionFailed? && e.stage == s
    case Binding => e.WorkflowStarted?
  }

  function Count(h: History, tag: Tag): nat {
    if h == [] then 0
    else Count(h[..|h| - 1], tag) + (if Tagged(h[|h| - 1], tag) then 1 else 0)
  }

  /** What the log of a stage adds up to. */
  predicate StageBalance(h: History, entry: StageEntry) {
    var s := entry.stageType;
    && Count(h, StartOf(s)) == Count(h, CompletionOf(s)) + Count(h, FailureOf(s))
                               + (if entry.status == StageStatus.Running then 1 else 0)
    && Count(h, StartOf(s)) == entry.attempts
    && Count(h, CompletionOf(s)) == (if entry.status == StageStatus.Complete then 1 else 0)
    && (entry.status == NotStarted <==> entry.attempts == 0)
  }

  /** The log rebuilds the assessment and its counts balance. */
  ghost predicate Faithful(h: History, a: AssessmentState) {
    && Rebuild(h) == Some(a)
    && (forall s :: StageBalance(h, a.progress.Get(s)))
    && Count(h, Binding) == (if a.template.Some? then 1 else 0)
    && (a.status in {Draft, Ready} ==> a.progress == NO_PROGRESS && a.template == None)
    && a.progress.template == a.template
  }

  lemma RebuildAppend(h: History, e: Event)
    requires Rebuild(h).Some?
    ensures Rebuild(h + [e]) == Some(ReplayOne(Rebuild(h).value, e))
  {
    assert (h + [e])[..|h|] == h;
  }

  lemma CountAppend(h: History, e: Event, tag: Tag)
    ensures Count(h + [e], tag) == Count(h, tag) + (if Tagged(e, tag) then 1 else 0)
  {
    assert (h + [e])[..|h|] == h;
  }

  lemma CountAppendAll(h: History, e: Event)
    ensures forall tag :: Count(h + [e], tag) == Count(h, tag) + (if Tagged(e, tag) then 1 else 0)
  {
    forall tag ensures Count(h + [e], tag) == Count(h, tag) + (if Tagged(e, tag) then 1 else 0) {
      CountAppend(h, e, tag);
    }
  }

  lemma CreationFaithful(tenant: nat, name: string, hazard: HazardType, actor: string)
    ensures Faithful([Created(tenant, hazard, name, actor)], NewState(tenant, name, hazard, actor))
  {
    var e := Created(tenant, hazard, name, actor);
    CountAppendAll([], e);
    assert [] + [e] == [e];
  }

  /** Every command but a workflow start emits one event, which says all it did. */
  lemma OneEvent(a: AssessmentState, cmd: Command)
    requires a.Apply(cmd).Ok? && !cmd.StartWorkflow?
    ensures var c := a.Apply(cmd).value;
      |c.events| == 1 && ReplayOne(a, c.events[0]) == c.state
  {}

  lemma TwoEvents(a: AssessmentState, cmd: Command)
    requires a.Apply(cmd).Ok? && cmd.StartWorkflow?
    ensures var c := a.Apply(cmd).value;
      |c.events| == 2 && ReplayOne(ReplayOne(a, c.events[0]), c.events[1]) == c.state
  {}

  /** How many tagged events a command emits. */
  function Emits(cmd: Command, tag: Tag): nat {
    match tag
    case StartOf(s) => if cmd.StartStage? && cmd.stage == s then 1 else 0
    case CompletionOf(s) => if cmd.CompleteStage? && cmd.stage == s then 1 else 0
    case FailureOf(s) => if cmd.FailStage? && cmd.stage == s then 1 else 0
    case Binding => if cmd.StartWorkflow? then 1 else 0
  }

  lemma EmitsTagged(a: AssessmentState, cmd: Command, tag: Tag)
    requires a.Apply(cmd).Ok?
    ensures var events := a.Apply(cmd).value.events;
      && events != [] && (|events| > 1 ==> |events| == 2 && !Tagged(events[0], tag))
      && (if Tagged(events[|events| - 1], tag) then 1 else 0) == Emits(cmd, tag)
  {}

  lemma RebuildKept(h: History, a: AssessmentState, cmd: Command)
    requires Rebuild(h) == Some(a) && a.Apply(cmd).Ok?
    ensures Rebuild(h + a.Apply(cmd).value.events) == Some(a.Apply(cmd).value.state)
  {
    var events := a.Apply(cmd).value.events;
    if cmd.StartWorkflow? {
      TwoEvents(a, cmd);
      RebuildAppend(h, events[0]);
      RebuildAppend(h + [events[0]], events[1]);
      TwoAppended(h, events);
    } else {
      OneEvent(a, cmd);
      RebuildAppend(h, events[0]);
      assert events == [events[0]];
    }
  }

  lemma CountShort(h: History, events: seq<Event>, tag: Tag)
    requires |events| == 1 || (|events| == 2 && !Tagged(events[0], tag))
    ensures Count(h + events, tag) == Count(h, tag) + (if Tagged(events[|events| - 1], tag) then 1 else 0)
  {
    CountAppend(h, events[0], tag);
    if |events| == 2 {
      CountAppend(h + [events[0]], events[1], tag);
      TwoAppended(h, events);
    } else {
      assert events == [events[0]];
    }
  }

  lemma TwoAppended<T>(h: seq<T>, events: seq<T>)
    requires |events| == 2
    ensures h + events == h + [events[0]] + [events[1]]
  {}

  lemma TagsKept(h: History, a: AssessmentState, cmd: Command, tag: Tag)
    requires a.Apply(cmd).Ok?
    ensures Count(h + a.Apply(cmd).value.events, tag) == Count(h, tag) + Emits(cmd, tag)
  {
    EmitsTagged(a, cmd, tag);
    CountShort(h, a.Apply(cmd).value.events, tag);
  }

  /** What an accepted command means for one stage's entry. */
  predicate Follows(cmd: Command, e: StageEntry, e': StageEntry) {
    && e'.stageType == e.stageType
    && if cmd.StartStage? && cmd.stage == e.stageType then
         Startable(e.status) && e'.status == StageStatus.Running && e'.attempts == e.attempts + 1
       else if cmd.CompleteStage? && cmd.stage == e.stageType then
         e.status == StageStatus.Running && e'.status == StageStatus.Complete && e'.attempts == e.attempts
       else if cmd.FailStage? && cmd.stage == e.stageType then
         e.status == StageStatus.Running && e'.status == StageStatus.Failed && e'.attempts == e.attempts
       else e' == e
  }

  lemma EntryFollows(a: AssessmentState, cmd: Command, s: StageType)
    requires a.Apply(cmd).Ok? && (cmd.StartWorkflow? ==> a.progress == NO_PROGRESS)
    ensures Follows(cmd, a.progress.Get(s), a.Apply(cmd).value.state.progress.Get(s))
  {}

  lemma BalanceFollows(h: History, h': History, cmd: Command, e: StageEntry, e': StageEntry)
    requires StageBalance(h, e) && Follows(cmd, e, e')
    requires forall tag :: Count(h', tag) == Count(h, tag) + Emits(cmd, tag)
    ensures StageBalance(h', e')
  {}

  lemma BalanceKept(h: History, a: AssessmentState, cmd: Command, s: StageType)
    requires StageBalance(h, a.progress.Get(s)) && a.Apply(cmd).Ok?
    requires cmd.StartWorkflow? ==> a.progress == NO_PROGRESS
    ensures StageBalance(h + a.Apply(cmd).value.events, a.Apply(cmd).value.state.progress.Get(s))
  {
    var h' := h + a.Apply(cmd).value.events;
    forall tag ensures Count(h', tag) == Count(h, tag) + Emits(cmd, tag) { TagsKept(h, a, cmd, tag); }
    EntryFollows(a, cmd, s);
    BalanceFollows(h, h', cmd, a.progress.Get(s), a.Apply(cmd).value.state.progress.Get(s));
  }

  lemma BindingKept(a: AssessmentState, cmd: Command)
    requires a.Apply(cmd).Ok? && a.progress.template == a.template
    requires a.status in {Draft, Ready} ==> a.progress == NO_PROGRESS && a.template == None
    ensures var a' := a.Apply(cmd).value.state;
      && a'.progress.template == a'.template
      && (a'.status in {Draft, Ready} ==> a'.progress == NO_PROGRESS && a'.template == None)
      && (if cmd.StartWorkflow? then a.template == None && a'.template.Some? && a.progress == NO_PROGRESS
          else a'.template == a.template)
  {
    match cmd
    case StartWorkflow(t, stages, actor) => WorkflowBinds(a, t, stages, actor);
    case StartStage(s, actor) => StepBindsNothing(a, s, StageStatus.Running, None, None);
    case CompleteStage(s, ref, actor) => StepBindsNothing(a, s, StageStatus.Complete, ref, None);
    case FailStage(s, error, actor) => StepBindsNothing(a, s, StageStatus.Failed, None, Some(error));
    case _ =>
  }

  lemma WorkflowBinds(a: AssessmentState, t: nat, stages: set<StageType>, actor: string)
    requires a.BindWorkflow(t, stages, actor).Ok?
    ensures var a' := a.BindWorkflow(t, stages, actor).value.state;
      a.status == Ready && a'.status == Lifecycle.Running && a'.template == Some(t) == a'.progress.template
  {}

  lemma StepBindsNothing(a: AssessmentState, s: StageType, to: StageStatus, ref: Option<ResultRef>, error: Option<string>)
    requires a.StageStep(s, to, ref, error).Ok?
    ensures var a' := a.StageStep(s, to, ref, error).value;
      a.status == a'.status == Lifecycle.Running && a'.template == a.template && a'.progress.template == a.progress.template
  {}

  /** Every accepted command keeps log and assessment in step. */
  lemma {:induction false} CommandKeepsFaithful(h: History, a: AssessmentState, cmd: Command)
    requires Faithful(h, a) && a.Apply(cmd).Ok?
    ensures Faithful(h + a.Apply(cmd).value.events, a.Apply(cmd).value.state)
  {
    RebuildKept(h, a, cmd);
    TagsKept(h, a, cmd, Binding);
    BindingKept(a, cmd);
    forall s ensures StageBalance(h + a.Apply(cmd).value.events, a.Apply(cmd).value.state.progress.Get(s)) {
      BalanceKept(h, a, cmd, s);
    }
  }
}
