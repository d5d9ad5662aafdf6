/** Any number of callers, any order: what holds after every sequence of atomic actions. */
module Interleavings {
  import opened Results
  import opened Stages
  import opened Assessments
  import opened Replay
  import opened Platform
  import opened OutboxLog

  /** One committed transaction: a creation, a command of any caller, or an analysis run. */
  datatype Action =
    | Creation(tenant: nat, name: string, hazard: HazardType, actor: string)
    | Issued(tenant: nat, id: nat, cmd: Command)
    | Recorded(id: nat, stage: StageType)

  /** A refused action changes nothing. */
  function Act(ex: Executors, w: World, action: Action): World {
    match action
    case Creation(tenant, name, hazard, actor) =>
      (match CreateAssessment(w, tenant, name, hazard, actor) case Ok(w') => w' case Err(_) => w)
    case Issued(tenant, id, cmd) =>
      (match Issue(w, tenant, id, cmd) case Ok(w') => w' case Err(_) => w)
    case Recorded(id, s) =>
      if id < |w.assessments| then RecordResult(ex, w, id, s) else w
  }

  function ActAll(ex: Executors, w: World, actions: seq<Action>): World {
    if actions == [] then w
    else Act(ex, ActAll(ex, w, actions[..|actions| - 1]), actions[|actions| - 1])
  }

  /** COMPLETE entries and template bindings are final; attempts never fall; assessments stay. */
  predicate Persists(w: World, w': World) {
    && |w.assessments| <= |w'.assessments|
    && (forall id :: 0 <= id < |w.assessments| ==> StatePersists(w.assessments[id].state, w'.assessments[id].state))
  }

  predicate StatePersists(a: AssessmentState, a': AssessmentState) {
    && a'.tenant == a.tenant && a'.hazard == a.hazard && a'.name == a.name
    && (a.template.Some? ==> a'.template == a.template)
    && (a.status in {Archived, Cancelled} ==> a' == a)
    && (forall s :: a'.progress.Get(s).attempts >= a.progress.Get(s).attempts)
    && (forall s :: a.progress.Status(s) == StageStatus.Complete ==> a'.progress.Get(s) == a.progress.Get(s))
  }

  lemma CommandPersists(h: History, a: AssessmentState, cmd: Command)
    requires Faithful(h, a) && a.Apply(cmd).Ok?
    ensures StatePersists(a, a.Apply(cmd).value.state)
  {
    match cmd
    case StartStage(s, actor) => StagePersists(a, s, StageStatus.Running, None, None);
    case CompleteStage(s, ref, actor) => StagePersists(a, s, StageStatus.Complete, ref, None);
    case FailStage(s, error, actor) => StagePersists(a, s, StageStatus.Failed, None, Some(error));
    case _ =>
  }

  lemma StagePersists(a: AssessmentState, s: StageType, to: StageStatus, ref: Option<ResultRef>, error: Option<string>)
    requires a.StageStep(s, to, ref, error).Ok?
    ensures StatePersists(a, a.StageStep(s, to, ref, error).value)
  {}

  lemma PersistsRefl(w: World)
    ensures Persists(w, w)
  {}

  lemma ActKeeps(ex: Executors, w: World, action: Action)
    requires Consistent(w)
    ensures Consistent(Act(ex, w, action)) && Persists(w, Act(ex, w, action))
  {
    PersistsRefl(w);
    match action
    case Creation(tenant, name, hazard, actor) =>
      if CreateAssessment(w, tenant, name, hazard, actor).Ok? { CreateActs(w, tenant, name, hazard, actor); }
    case Issued(tenant, id, cmd) =>
      if Issue(w, tenant, id, cmd).Ok? { IssueActs(w, tenant, id, cmd); }
    case Recorded(id, s) =>
      if id < |w.assessments| { RecordActs(ex, w, id, s); }
  }

  lemma RecordActs(ex: Executors, w: World, id: nat, s: StageType)
    requires Consistent(w) && id < |w.assessments|
    ensures Consistent(RecordResult(ex, w, id, s)) && Persists(w, RecordResult(ex, w, id, s))
  {
    RecordConsistent(ex, w, id, s);
  }

  lemma IssueActs(w: World, tenant: nat, id: nat, cmd: Command)
    requires Consistent(w) && Issue(w, tenant, id, cmd).Ok?
    ensures Consistent(Issue(w, tenant, id, cmd).value) && Persists(w, Issue(w, tenant, id, cmd).value)
  {
    IssueConsistent(w, tenant, id, cmd);
    CommandPersists(HistoryOf(w.outbox, AssessmentId(id)), w.assessments[id].state, cmd);
  }

  lemma CreateActs(w: World, tenant: nat, name: string, hazard: HazardType, actor: string)
    requires Consistent(w) && CreateAssessment(w, tenant, name, hazard, actor).Ok?
    ensures var w' := CreateAssessment(w, tenant, name, hazard, actor).value; Consistent(w') && Persists(w, w')
  {
    CreateConsistent(w, tenant, name, hazard, actor);
    CreatePersists(w, CreateAssessment(w, tenant, name, hazard, actor).value, Stored(NewState(tenant, name, hazard, actor), 0));
  }

  lemma CreatePersists(w: World, w': World, added: Stored)
    requires w'.assessments == w.assessments + [added]
    ensures Persists(w, w')
  {}

  lemma PersistsJoins(w: World, v: World, u: World)
    requires Persists(w, v) && Persists(v, u)
    ensures Persists(w, u)
  {
    forall id | 0 <= id < |w.assessments| ensures StatePersists(w.assessments[id].state, u.assessments[id].state) {
      assert StatePersists(w.assessments[id].state, v.assessments[id].state);
      assert StatePersists(v.assessments[id].state, u.assessments[id].state);
    }
  }

  lemma {:induction false} RunKeeps(ex: Executors, w: World, actions: seq<Action>)
    requires Consistent(w)
    ensures Consistent(ActAll(ex, w, actions)) && Persists(w, ActAll(ex, w, actions))
  {
    if actions != [] {
      var n := |actions| - 1;
      RunKeeps(ex, w, actions[..n]);
      var v := ActAll(ex, w, actions[..n]);
      ActKeeps(ex, v, actions[n]);
      PersistsJoins(w, v, Act(ex, v, actions[n]));
    }
  }

  function Empty(templates: seq<Template>): World {
    World([], templates, [], [])
  }

  /** At every moment of every interleaving the log rebuilds every assessment, is numbered without
      gaps, and balances; and whatever is final stays so for the rest of it. */
  lemma {:induction false} EveryInterleaving(ex: Executors, templates: seq<Template>, before: seq<Action>, after: seq<Action>)
    ensures var w := ActAll(ex, Empty(templates), before);
      Consistent(w) && Consistent(ActAll(ex, w, after)) && Persists(w, ActAll(ex, w, after))
  {
    EmptyConsistent(templates);
    RunKeeps(ex, Empty(templates), before);
    RunKeeps(ex, ActAll(ex, Empty(templates), before), after);
  }
}
