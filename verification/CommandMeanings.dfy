/** What every command answers, read off the lifecycle and stage tables: when it is accepted, with which
    error it is refused otherwise, and the whole new state and events. */
module CommandMeanings {
  import opened Results
  import opened Stages
  import opened Templates
  import opened Assessments
  import opened Platform
  import opened OutboxLog

  predicate Space(c: char) {
    || c == ' ' || c == '\t' || c == '\n' || c == '\U{0B}' || c == '\U{0C}' || c == '\r'
    || c == '\U{1C}' || c == '\U{1D}' || c == '\U{1E}' || c == '\U{1F}'
  }

  /** A character other than (ASCII) white space. */
  predicate HasInk(text: string) {
    exists c <- text :: !Space(c)
  }

  lemma SpaceCodes(c: char)
    ensures Space(c) <==> (c == ' ' || '\t' <= c <= '\r' || '\U{1C}' <= c <= '\U{1F}')
  {
    var k := c as int;
    assert '\t' <= c <= '\r' ==> k == 9 || k == 10 || k == 11 || k == 12 || k == 13;
    assert '\U{1C}' <= c <= '\U{1F}' ==> k == 28 || k == 29 || k == 30 || k == 31;
  }

  lemma BlankIff(text: string)
    ensures Blank(text) <==> !HasInk(text)
  {
    forall c <- text ensures Space(c) <==> (c == ' ' || '\t' <= c <= '\r' || '\U{1C}' <= c <= '\U{1F}') { SpaceCodes(c); }
  }

  // ---- The aggregate ----

  /** A plain step from exactly one status to exactly one other. */
  predicate Moves(r: Result<Change, Error>, a: AssessmentState, from: Lifecycle, to: Lifecycle, actor: string) {
    r == if a.status == from then Ok(Change(a.(status := to), [StageAdvanced(from, to, actor)]))
         else Err(IllegalTransition(a.status, to))
  }

  predicate Cancels(r: Result<Change, Error>, a: AssessmentState, reason: string, actor: string) {
    match a.status
    case Reported => r == Err(IllegalTransition(Reported, Cancelled))
    case Archived => r == Err(IllegalTransition(Archived, Cancelled))
    case Cancelled => r == Err(IllegalTransition(Cancelled, Cancelled))
    case _ =>
      r == if HasInk(reason)
           then Ok(Change(a.(status := Cancelled, cancellationReason := reason), [CancelledFor(reason, actor)]))
           else Err(BlankText)
  }

  /** The place of a stage's stored name in the alphabet. */
  function Place(s: StageType): nat {
    match s
    case BurnOccurrenceProbability => 0
    case BurnSeverity => 1
    case Exposure => 2
    case FireRegime => 3
    case Hazard => 4
    case Resilience => 5
    case Risk => 6
    case Validation => 7
    case Vulnerability => 8
  }

  predicate ByName(names: seq<StageType>) {
    forall i, j :: 0 <= i < j < |names| ==> Place(names[i]) < Place(names[j])
  }

  /** The stages, each once, by name. */
  predicate ListsByName(names: seq<StageType>, stages: set<StageType>) {
    (forall s :: s in names <==> s in stages) && ByName(names)
  }

  /** One untouched entry for each of the names. */
  predicate EntriesFor(entries: seq<StageEntry>, names: seq<StageType>) {
    |entries| == |names| && forall i :: 0 <= i < |names| ==> entries[i] == StageEntry(names[i], NotStarted, 0, None, None)
  }

  predicate Binds(r: Result<Change, Error>, a: AssessmentState, t: nat, stages: set<StageType>, actor: string) {
    if a.status != Ready then r == Err(IllegalTransition(a.status, Lifecycle.Running))
    else
      && r.Ok?
      && var a' := r.value.state;
      && a' == a.(status := Lifecycle.Running, template := Some(t), progress := a'.progress)
      && a'.progress.template == Some(t)
      && (forall s :: a'.progress.Get(s) == StageEntry(s, NotStarted, 0, None, None))
      && |r.value.events| == 2 && r.value.events[0] == StageAdvanced(Ready, Lifecycle.Running, actor)
      && r.value.events[1].WorkflowStarted?
      && r.value.events[1].template == t && r.value.events[1].actor == actor
      && ListsByName(r.value.events[1].stages, stages)
      && EntriesFor(a'.progress.entries, r.value.events[1].stages)
  }

  /** The entry of one stage becomes `e`; nothing else changes. */
  predicate Steps(r: Result<Change, Error>, a: AssessmentState, e: StageEntry, event: Event) {
    && r.Ok? && r.value.events == [event]
    && var a' := r.value.state;
    && a' == a.(progress := a'.progress) && a'.progress.template == a.progress.template
    && (forall t :: a'.progress.Get(t) == if t == e.stageType then e else a.progress.Get(t))
  }

  /** What the command means, in full. */
  predicate Meaning(r: Result<Change, Error>, a: AssessmentState, cmd: Command) {
    match cmd
    case MarkReady(actor) => Moves(r, a, Lifecycle.Draft, Ready, actor)
    case Start(actor) => Moves(r, a, Ready, Lifecycle.Running, actor)
    case MarkValidated(actor) => Moves(r, a, Lifecycle.Running, Validated, actor)
    case MarkReported(actor) => Moves(r, a, Validated, Reported, actor)
    case Archive(actor) =>
      r == if a.status == Reported then Ok(Change(a.(status := Archived), [ArchivedBy(actor)]))
           else Err(IllegalTransition(a.status, Archived))
    case Cancel(reason, actor) => Cancels(r, a, reason, actor)
    case StartWorkflow(t, stages, actor) => Binds(r, a, t, stages, actor)
    case StartStage(s, actor) =>
      var e := a.progress.Get(s);
      if a.status != Lifecycle.Running then r == Err(NotRunning(a.status, s))
      else if e.status == NotStarted || e.status == Failed then
        Steps(r, a, StageEntry(s, StageStatus.Running, e.attempts + 1, e.resultRef, None), ExecutionStarted(s, e.attempts + 1, actor))
      else r == Err(IllegalStageStep(s, e.status, StageStatus.Running))
    case CompleteStage(s, ref, _) =>
      var e := a.progress.Get(s);
      if a.status != Lifecycle.Running then r == Err(NotRunning(a.status, s))
      else if e.status == StageStatus.Running then
        Steps(r, a, StageEntry(s, Complete, e.attempts, ref, e.lastError), ExecutionCompleted(s, ref))
      else r == Err(IllegalStageStep(s, e.status, Complete))
    case FailStage(s, error, _) =>
      var e := a.progress.Get(s);
      if a.status != Lifecycle.Running then r == Err(NotRunning(a.status, s))
      else if e.status == StageStatus.Running then
        Steps(r, a, StageEntry(s, Failed, e.attempts, e.resultRef, Some(error)), ExecutionFailed(s, e.attempts, error))
      else r == Err(IllegalStageStep(s, e.status, Failed))
    case AdvancePastRunning(required, actor) =>
      if exists s :: s in required && a.progress.Get(s).status != Complete then r == Err(WorkflowNotComplete)
      else Moves(r, a, Lifecycle.Running, Validated, actor)
  }

  lemma FirstByName(s: StageType, rest: seq<StageType>)
    requires ByName(rest) && forall t <- rest :: Place(s) < Place(t)
    ensures ByName([s] + rest)
  {}

  lemma {:induction false} SortedListsWithin(names: seq<StageType>, stages: set<StageType>)
    requires ByName(names)
    ensures ByName(SortedWithin(names, stages))
  {
    if names != [] {
      var rest := SortedWithin(names[1..], stages);
      SortedListsWithin(names[1..], stages);
      forall s <- rest ensures Place(names[0]) < Place(s) {
        var i :| 0 <= i < |names[1..]| && names[1..][i] == s;
        assert names[i + 1] == s;
      }
      FirstByName(names[0], rest);
      assert [] + rest == rest;
    }
  }

  lemma AllByName()
    ensures ByName(STAGES_BY_NAME)
  {}

  lemma SortedLists(stages: set<StageType>)
    ensures ListsByName(Sorted(stages), stages)
  {
    AllByName();
    SortedListsWithin(STAGES_BY_NAME, stages);
  }

  lemma {:induction false} FreshListed(names: seq<StageType>)
    ensures EntriesFor(FreshEntries(names), names)
  {
    if names != [] { FreshListed(names[1..]); }
  }

  lemma InitialEntries(t: nat, stages: set<StageType>)
    ensures forall s :: Initialize(t, stages).Get(s) == StageEntry(s, NotStarted, 0, None, None)
  {
    forall s ensures Initialize(t, stages).Get(s) == StageEntry(s, NotStarted, 0, None, None) {
      assert Initialize(t, stages).Get(s) == FreshEntry(s);
    }
  }

  lemma BindMeans(a: AssessmentState, t: nat, stages: set<StageType>, actor: string)
    ensures Binds(a.BindWorkflow(t, stages, actor), a, t, stages, actor)
  {
    SortedLists(stages);
    FreshListed(Sorted(stages));
    InitialEntries(t, stages);
  }

  lemma CancelMeans(a: AssessmentState, reason: string, actor: string)
    ensures Cancels(a.ToCancelled(reason, actor), a, reason, actor)
  {
    BlankIff(reason);
  }

  lemma AdvanceIff(p: WorkflowProgress, required: set<StageType>)
    ensures p.AllComplete(required) <==> !(exists s :: s in required && p.Get(s).status != Complete)
  {
    forall s <- required ensures p.Status(s) == p.Get(s).status {}
  }

  /** Every command on every assessment. */
  lemma CommandMeans(a: AssessmentState, cmd: Command)
    ensures Meaning(a.Apply(cmd), a, cmd)
  {
    match cmd
    case Cancel(reason, actor) => CancelMeans(a, reason, actor);
    case StartWorkflow(t, stages, actor) => BindMeans(a, t, stages, actor);
    case AdvancePastRunning(required, _) => AdvanceIff(a.progress, required);
    case _ =>
  }

  // ---- The handlers ----

  /** The events at the end of one history, and no other history changed. */
  ghost predicate Logs(w: World, w': World, id: nat, events: seq<Event>) {
    forall of :: HistoryOf(w'.outbox, of) == HistoryOf(w.outbox, of) + (if of == AssessmentId(id) then events else [])
  }

  ghost predicate AllNumbered(outbox: seq<OutboxRow>) {
    forall of :: Numbered(RowsOf(outbox, of))
  }

  lemma AppendLogs(w: World, w': World, id: nat, events: seq<Event>)
    requires AllNumbered(w.outbox) && w'.outbox == AppendAll(w.outbox, AssessmentId(id), events)
    ensures Logs(w, w', id, events)
  {
    forall of ensures HistoryOf(w'.outbox, of) == HistoryOf(w.outbox, of) + (if of == AssessmentId(id) then events else []) {
      AppendAllEffect(w.outbox, AssessmentId(id), events, of);
    }
  }

  /** A command on a stored assessment: refused as not found exactly when the tenant has none there, refused as
      the aggregate refuses it, and otherwise saved as the next version of that row alone, with its events
      at the end of that assessment's history alone. */
  lemma IssueStores(w: World, tenant: nat, id: nat, cmd: Command)
    requires AllNumbered(w.outbox)
    ensures var r := Issue(w, tenant, id, cmd);
      if id >= |w.assessments| || w.assessments[id].state.tenant != tenant then r == Err(NotFound)
      else
        var answer := w.assessments[id].state.Apply(cmd);
        && (answer.Err? ==> r == Err(answer.error))
        && (answer.Ok? ==>
              && r.Ok? && r.value.templates == w.templates && r.value.results == w.results
              && r.value.assessments == w.assessments[id := Stored(answer.value.state, w.assessments[id].version + 1)]
              && Logs(w, r.value, id, answer.value.events))
  {
    if Visible(w, tenant, id) {
      var answer := w.assessments[id].state.Apply(cmd);
      if answer.Ok? { AppendLogs(w, Issue(w, tenant, id, cmd).value, id, answer.value.events); }
    }
  }

  /** Creation: a draft of the tenant at the end of the table, or a refusal of a blank name. */
  lemma CreationMeans(w: World, tenant: nat, name: string, hazard: HazardType, actor: string)
    ensures var r := CreateAssessment(w, tenant, name, hazard, actor);
      if !HasInk(name) then r == Err(BlankText)
      else
        && r.Ok? && r.value.templates == w.templates && r.value.results == w.results
        && r.value.assessments == w.assessments + [Stored(
             AssessmentState(tenant, name, hazard, actor, Lifecycle.Draft, "", None, WorkflowProgress(None, [])), 0)]
        && |r.value.outbox| == |w.outbox| + 1 && w.outbox <= r.value.outbox
        && r.value.outbox[|w.outbox|].aggregate == AssessmentId(|w.assessments|)
        && r.value.outbox[|w.outbox|].event == Created(tenant, hazard, name, actor)
  {
    BlankIff(name);
  }

  /** Starting a workflow: the refusals in order, and then the binding of exactly the template's stages. */
  lemma StartWorkflowMeans(w: World, tenant: nat, id: nat, template: nat, actor: string)
    ensures var r := IssueStartWorkflow(w, tenant, id, template, actor);
      if id >= |w.assessments| || w.assessments[id].state.tenant != tenant then r == Err(NotFound)
      else if template >= |w.templates| then r == Err(TemplateNotFound)
      else if w.templates[template].status != Published then r.Err? && r.error.Guard?
      else if w.templates[template].hazard != w.assessments[id].state.hazard then r.Err? && r.error.Guard?
      else
        var stages := set i | 0 <= i < |w.templates[template].stages| :: w.templates[template].stages[i].stageType;
        r == Issue(w, tenant, id, StartWorkflow(template, stages, actor))
  {
    if template < |w.templates| { TypesListed(w.templates[template].stages); }
  }

  lemma TypesListed(sds: seq<StageDefinition>)
    ensures Types(sds) == set i | 0 <= i < |sds| :: sds[i].stageType
  {}

  /** Advancing: the refusals in order, and then the guarded advance over exactly the bound template's stages. */
  lemma AdvanceMeans(w: World, tenant: nat, id: nat, actor: string)
    ensures var r := IssueAdvance(w, tenant, id, actor);
      if id >= |w.assessments| || w.assessments[id].state.tenant != tenant then r == Err(NotFound)
      else
        match w.assessments[id].state.template
        case None => r.Err? && r.error.Guard?
        case Some(t) =>
          if t >= |w.templates| then r == Err(TemplateNotFound)
          else
            var stages := set i | 0 <= i < |w.templates[t].stages| :: w.templates[t].stages[i].stageType;
            r == Issue(w, tenant, id, AdvancePastRunning(stages, actor))
  {
    if Visible(w, tenant, id) && w.assessments[id].state.template.Some? {
      var t := w.assessments[id].state.template.value;
      if t < |w.templates| { TypesListed(w.templates[t].stages); }
    }
  }
}
