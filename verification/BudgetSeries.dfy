/** The retry budget over whole series of requests: exactly when it holds, by what users may trigger, and
    the bound that always does. */
module BudgetSeries {
  import opened Results
  import opened Stages
  import opened Templates
  import opened Assessments
  import opened Platform
  import opened Interleavings
  import opened Engine
  import opened EngineRuns
  import opened EngineTheorems
  import opened AttemptBounds
  import opened Requests
  import opened Scenarios
  import opened WorkflowGuarantees
  import opened LifecycleGuarantees
  import opened RetryBudgets
  import opened BudgetExceeded

  // ---- Series ----

  /** The request does not trigger `s` on the assessment, and triggers others only as the scope says. */
  predicate ObeysScope(scope: Scope, w: World, request: Request, id: nat, s: StageType) {
    request.TriggerStage? && request.id == id ==>
      && request.stage != s && scope != NoTriggers
      && (scope == ReadyTriggers && BoundStages(w, id).Some? ==>
            PredecessorsMet(BoundStages(w, id).value, ProgressOf(w, id), request.stage))
  }

  ghost predicate Obedient(scope: Scope, ex: Executors, templates: seq<Template>, requests: seq<Request>, id: nat, s: StageType) {
    requests == []
    || (var n := |requests| - 1;
        && Obedient(scope, ex, templates, requests[..n], id, s)
        && ObeysScope(scope, ServeAll(ex, Empty(templates), requests[..n]), requests[n], id, s))
  }

  lemma OneMoreObeys(scope: Scope, ex: Executors, templates: seq<Template>, requests: seq<Request>, last: Request,
                     id: nat, s: StageType)
    requires Obedient(scope, ex, templates, requests, id, s)
    requires ObeysScope(scope, ServeAll(ex, Empty(templates), requests), last, id, s)
    ensures Obedient(scope, ex, templates, requests + [last], id, s)
  {
    assert (requests + [last])[..|requests|] == requests;
  }

  predicate BoundTo(w: World, id: nat, sds: seq<StageDefinition>) {
    id < |w.assessments| && BoundStages(w, id) == Some(sds)
  }

  /** A trigger binds nothing. */
  lemma TriggerKeepsBinding(ex: Executors, w: World, tenant: nat, id: nat, t: StageType, actor: string)
    requires Attemptable(w, tenant, id, t)
    ensures BoundStages(Execute(ex, w, tenant, id, t, actor).world, id) == BoundStages(w, id)
  {
    if BoundStages(w, id).None? {
      AttemptEffect(ex, w, tenant, id, t, actor);
      UnboundTrigger(ex, w, tenant, id, t, actor);
    } else {
      ExecuteGrows(ex, w, tenant, id, t, actor, BoundStages(w, id).value);
    }
  }

  lemma ChangeKeepsBinding(w: World, tenant: nat, id: nat, cmd: LifecycleCommand)
    requires Issue(w, tenant, id, cmd).Ok?
    ensures var w' := Issue(w, tenant, id, cmd).value;
      BoundStages(w', id) == BoundStages(w, id) && ProgressOf(w', id) == ProgressOf(w, id)
  {}

  // ---- Under the condition the budget is kept ----

  ghost predicate KeptIn(scope: Scope, w: World, id: nat, sds: seq<StageDefinition>, s: StageType) {
    BoundTo(w, id, sds) ==> Ordinary(scope, sds, ProgressOf(w, id), s) && Budgeted(sds, ProgressOf(w, id), s)
  }

  lemma SameKept(scope: Scope, w: World, w': World, id: nat, sds: seq<StageDefinition>, s: StageType)
    requires KeptIn(scope, w, id, sds, s)
    requires BoundTo(w', id, sds) ==> BoundTo(w, id, sds) && ProgressOf(w', id) == ProgressOf(w, id)
    ensures KeptIn(scope, w', id, sds, s)
  {}

  lemma BeginKept(scope: Scope, ex: Executors, w: World, tenant: nat, id: nat, template: nat, actor: string,
                  sds: seq<StageDefinition>, s: StageType)
    requires Guarded(scope, sds, s) && KeptIn(scope, w, id, sds, s)
    ensures KeptIn(scope, StartAll(ex, w, tenant, id, template, actor).world, id, sds, s)
  {
    if IssueStartWorkflow(w, tenant, id, template, actor).Ok? {
      StartedBound(ex, w, tenant, id, template, actor);
      if w.templates[template].stages == sds { StartBudget(scope, ex, w, tenant, id, template, actor, s); }
    }
  }

  lemma TriggerKept(scope: Scope, ex: Executors, w: World, tenant: nat, id: nat, t: StageType, actor: string,
                    sds: seq<StageDefinition>, s: StageType)
    requires Guarded(scope, sds, s) && KeptIn(scope, w, id, sds, s)
    requires ObeysScope(scope, w, TriggerStage(tenant, id, t, actor), id, s)
    ensures KeptIn(scope, Execute(ex, w, tenant, id, t, actor).world, id, sds, s)
  {
    AttemptEffect(ex, w, tenant, id, t, actor);
    if Attemptable(w, tenant, id, t) {
      TriggerKeepsBinding(ex, w, tenant, id, t, actor);
      if BoundTo(w, id, sds) { TriggerBudget(scope, ex, w, tenant, id, sds, s, t, actor); }
    }
  }

  lemma ServeKept(scope: Scope, ex: Executors, w: World, request: Request, id: nat, sds: seq<StageDefinition>, s: StageType)
    requires Guarded(scope, sds, s) && KeptIn(scope, w, id, sds, s) && ObeysScope(scope, w, request, id, s)
    ensures KeptIn(scope, Serve(ex, w, request).world, id, sds, s)
  {
    match request
    case Create(tenant, name, hazard, actor) => SameKept(scope, w, Serve(ex, w, request).world, id, sds, s);
    case ChangeStatus(tenant, k, cmd) =>
      if Issue(w, tenant, k, cmd).Ok? {
        if k == id { ChangeKeepsBinding(w, tenant, k, cmd); }
        SameKept(scope, w, Issue(w, tenant, k, cmd).value, id, sds, s);
      }
    case BeginWorkflow(tenant, k, template, actor) =>
      if k == id { BeginKept(scope, ex, w, tenant, k, template, actor, sds, s); }
      else {
        StartTouchesOne(ex, w, tenant, k, template, actor);
        SameKept(scope, w, StartAll(ex, w, tenant, k, template, actor).world, id, sds, s);
      }
    case TriggerStage(tenant, k, t, actor) =>
      if k == id { TriggerKept(scope, ex, w, tenant, k, t, actor, sds, s); }
      else {
        TriggerTouchesOne(ex, w, tenant, k, t, actor);
        SameKept(scope, w, Execute(ex, w, tenant, k, t, actor).world, id, sds, s);
      }
  }

  lemma {:induction false} SeriesKept(scope: Scope, ex: Executors, templates: seq<Template>, requests: seq<Request>, id: nat,
                                      sds: seq<StageDefinition>, s: StageType)
    requires Guarded(scope, sds, s) && Obedient(scope, ex, templates, requests, id, s)
    ensures KeptIn(scope, ServeAll(ex, Empty(templates), requests), id, sds, s)
  {
    if requests != [] {
      var n := |requests| - 1;
      SeriesKept(scope, ex, templates, requests[..n], id, sds, s);
      ServeKept(scope, ex, ServeAll(ex, Empty(templates), requests[..n]), requests[n], id, sds, s);
    }
  }

  // ---- Without it the budget is exceeded ----

  const STARTED: seq<Request> := READY_ASSESSMENT + [BeginWorkflow(0, 0, 0, "u")]

  /** The series so far, and what it has led to: the stages of `done` are COMPLETE. */
  ghost predicate UnderWay(ex: Executors, w: World, sds: seq<StageDefinition>, s: StageType, u: StageType, before: set<StageType>,
                           done: set<StageType>)
  {
    && Mid(ex, w, 0, 0, sds, s, u, before) && Coming(w, 0, sds, s, u, before)
    && done <= ProgressOf(w, 0).Completed()
    && (!Hangs(sds, before, u) ==> ProgressOf(w, 0).Get(u) == FreshEntry(u))
  }

  /** The rival waits: the dispatch rule never reaches it. */
  lemma RivalWaits(ex: Executors, sds: seq<StageDefinition>, manual: set<StageType>, s: StageType, u: StageType,
                   before: set<StageType>,
                   p: WorkflowProgress, p': WorkflowProgress)
    requires Rivals(sds, s, u, before) && !Hangs(sds, before, u) && u !in manual
    requires Evolves(sds, manual, p, p') && Staged(p', u, before)
    ensures p'.Get(u) == p.Get(u)
  {
    assert StageEvolves(sds, manual, p, p', u);
  }

  lemma BeginUnderWay(ex: Executors, w: World, sds: seq<StageDefinition>, s: StageType, u: StageType, before: set<StageType>)
    requires Rivals(sds, s, u, before) && Decides(ex, u, before)
    requires Alone(w, [Template(Flood, Published, sds)], Lifecycle.Ready, 1)
    ensures UnderWay(ex, StartAll(ex, w, 0, 0, 0, "u").world, sds, s, u, before, {})
  {
    StartedActive(w, 0, 0, 0, "u");
    var started := IssueStartWorkflow(w, 0, 0, 0, "u").value;
    FreshComing(ex, started, 0, 0, sds, s, u, before);
    if !Hangs(sds, before, u) {
      FreshDispatch(ex, started, 0, 0, sds);
      RivalWaits(ex, sds, {}, s, u, before, ProgressOf(started, 0), ProgressOf(Dispatch(ex, started, 0, 0).world, 0));
    }
  }

  /** A stage that comes before `s` is triggered: it completes, or was COMPLETE. */
  lemma TriggerUnderWay(ex: Executors, w: World, sds: seq<StageDefinition>, s: StageType, u: StageType, before: set<StageType>,
                        done: set<StageType>, q: StageType)
    requires UnderWay(ex, w, sds, s, u, before, done) && q in before
    ensures UnderWay(ex, Execute(ex, w, 0, 0, q, "u").world, sds, s, u, before, done + {q})
  {
    StartableUnless(ProgressOf(w, 0), u, before, q);
    if Startable(ProgressOf(w, 0).Status(q)) {
      TriggerCompletes(ex, w, sds, s, u, before, q);
      ExecuteMid(ex, w, 0, 0, q, sds, s, u, before, "u");
      ExecuteComing(ex, w, 0, 0, q, sds, s, u, before, "u");
      if !Hangs(sds, before, u) { TriggerLeavesRival(ex, w, sds, s, u, before, q); }
    } else {
      AttemptEffect(ex, w, 0, 0, q, "u");
    }
  }

  lemma TriggerLeavesRival(ex: Executors, w: World, sds: seq<StageDefinition>, s: StageType, u: StageType,
                           before: set<StageType>, q: StageType)
    requires Mid(ex, w, 0, 0, sds, s, u, before) && q in before && Startable(ProgressOf(w, 0).Status(q)) && !Hangs(sds, before, u)
    ensures ProgressOf(Execute(ex, w, 0, 0, q, "u").world, 0).Get(u) == ProgressOf(w, 0).Get(u)
  {
    ExecuteMid(ex, w, 0, 0, q, sds, s, u, before, "u");
    ExecuteLive(ex, w, 0, 0, q, "u", sds);
    RivalWaits(ex, sds, {q}, s, u, before, ProgressOf(w, 0), ProgressOf(Execute(ex, w, 0, 0, q, "u").world, 0));
  }

  lemma TriggerCompletes(ex: Executors, w: World, sds: seq<StageDefinition>, s: StageType, u: StageType,
                         before: set<StageType>, q: StageType)
    requires Mid(ex, w, 0, 0, sds, s, u, before) && q in before && Startable(ProgressOf(w, 0).Status(q))
    ensures q in ProgressOf(Execute(ex, w, 0, 0, q, "u").world, 0).Completed()
  {
    AttemptBefore(ex, w, 0, 0, q, "u", u, before);
    AttemptEffect(ex, w, 0, 0, q, "u");
    AttemptedGrows(ex, w, 0, 0, q, "u", sds);
    assert q in ProgressOf(Attempt(ex, w, 0, 0, q, "u").0.world, 0).Completed();
  }

  function Members(order: seq<StageType>): set<StageType> {
    set t <- order
  }

  /** Some definition of the stage needs only those stages. */
  predicate Supported(sds: seq<StageDefinition>, done: set<StageType>, t: StageType) {
    exists sd <- sds :: sd.stageType == t && sd.predecessors <= done
  }

  /** Stages in an order in which they may be triggered. */
  predicate Orders(scope: Scope, sds: seq<StageDefinition>, before: set<StageType>, order: seq<StageType>) {
    order != [] ==>
      var n := |order| - 1;
      && Orders(scope, sds, before, order[..n]) && order[n] in before
      && (scope == ReadyTriggers ==> Supported(sds, Members(order[..n]), order[n]))
  }

  lemma SupportedMet(sds: seq<StageDefinition>, p: WorkflowProgress, done: set<StageType>, t: StageType)
    requires Supported(sds, done, t) && done <= p.Completed()
    ensures PredecessorsMet(sds, p, t)
  {
    var sd :| sd in sds && sd.stageType == t && sd.predecessors <= done;
    CompleteAll(p, sd.predecessors);
  }

  lemma LastMember(order: seq<StageType>)
    requires order != []
    ensures Members(order) == Members(order[..|order| - 1]) + {order[|order| - 1]}
  {}

  /** A series on a template of its own that obeys the scope and has led there. */
  ghost predicate Leading(scope: Scope, ex: Executors, sds: seq<StageDefinition>, s: StageType, u: StageType,
                          before: set<StageType>,
                          requests: seq<Request>, done: set<StageType>)
  {
    && UnderWay(ex, ServeAll(ex, Empty([Template(Flood, Published, sds)]), requests), sds, s, u, before, done)
    && Obedient(scope, ex, [Template(Flood, Published, sds)], requests, 0, s)
  }

  lemma StartLeads(scope: Scope, ex: Executors, sds: seq<StageDefinition>, s: StageType, u: StageType, before: set<StageType>)
    requires Rivals(sds, s, u, before) && Decides(ex, u, before)
    ensures Leading(scope, ex, sds, s, u, before, STARTED, {})
  {
    StartedUnderWay(ex, sds, s, u, before);
    StartedObeys(scope, ex, [Template(Flood, Published, sds)], s);
  }

  /** Starting the workflow and triggering the listed stages one after another. */
  lemma {:induction false} OrderLeads(scope: Scope, ex: Executors, sds: seq<StageDefinition>, s: StageType, u: StageType,
                                      before: set<StageType>, order: seq<StageType>) returns (requests: seq<Request>)
    requires Rivals(sds, s, u, before) && Decides(ex, u, before) && Orders(scope, sds, before, order) && scope != NoTriggers
    ensures Leading(scope, ex, sds, s, u, before, requests, Members(order))
  {
    if order == [] {
      requests := STARTED;
      StartLeads(scope, ex, sds, s, u, before);
      assert Members(order) == {};
    } else {
      var n := |order| - 1;
      var front := OrderLeads(scope, ex, sds, s, u, before, order[..n]);
      requests := front + [TriggerStage(0, 0, order[n], "u")];
      OneMoreLeads(scope, ex, sds, s, u, before, front, Members(order[..n]), order[n]);
      LastMember(order);
    }
  }

  lemma OneMoreLeads(scope: Scope, ex: Executors, sds: seq<StageDefinition>, s: StageType, u: StageType, before: set<StageType>,
                     front: seq<Request>, done: set<StageType>, q: StageType)
    requires scope != NoTriggers && q in before && (scope == ReadyTriggers ==> Supported(sds, done, q))
    requires Leading(scope, ex, sds, s, u, before, front, done)
    ensures Leading(scope, ex, sds, s, u, before, front + [TriggerStage(0, 0, q, "u")], done + {q})
  {
    var templates := [Template(Flood, Published, sds)];
    var w, last := ServeAll(ex, Empty(templates), front), TriggerStage(0, 0, q, "u");
    OneMoreRequest(ex, Empty(templates), front, last);
    TriggerUnderWay(ex, w, sds, s, u, before, done, q);
    TriggerObeys(scope, ex, w, sds, s, u, before, done, q);
    OneMoreObeys(scope, ex, templates, front, last, 0, s);
  }

  lemma TriggerObeys(scope: Scope, ex: Executors, w: World, sds: seq<StageDefinition>, s: StageType, u: StageType,
                     before: set<StageType>,
                     done: set<StageType>, q: StageType)
    requires UnderWay(ex, w, sds, s, u, before, done) && q != s
    requires scope != NoTriggers && (scope == ReadyTriggers ==> Supported(sds, done, q))
    ensures ObeysScope(scope, w, TriggerStage(0, 0, q, "u"), 0, s)
  {
    if scope == ReadyTriggers { SupportedMet(sds, ProgressOf(w, 0), done, q); }
  }

  lemma StartedUnderWay(ex: Executors, sds: seq<StageDefinition>, s: StageType, u: StageType, before: set<StageType>)
    requires Rivals(sds, s, u, before) && Decides(ex, u, before)
    ensures UnderWay(ex, ServeAll(ex, Empty([Template(Flood, Published, sds)]), STARTED), sds, s, u, before, {})
  {
    var templates := [Template(Flood, Published, sds)];
    ReadyAssessment(ex, templates);
    OneMoreRequest(ex, Empty(templates), READY_ASSESSMENT, BeginWorkflow(0, 0, 0, "u"));
    BeginUnderWay(ex, ServeAll(ex, Empty(templates), READY_ASSESSMENT), sds, s, u, before);
  }

  lemma StartedObeys(scope: Scope, ex: Executors, templates: seq<Template>, s: StageType)
    ensures Obedient(scope, ex, templates, STARTED, 0, s)
  {
    assert [] + NEW_ASSESSMENT == NEW_ASSESSMENT;
    OneMoreObeys(scope, ex, templates, [], NEW_ASSESSMENT[0], 0, s);
    OneMoreObeys(scope, ex, templates, NEW_ASSESSMENT, ChangeStatus(0, 0, MarkReady("u")), 0, s);
    OneMoreObeys(scope, ex, templates, READY_ASSESSMENT, BeginWorkflow(0, 0, 0, "u"), 0, s);
  }

  /** Stages in reach can be listed so that each needs only stages listed before it. */
  lemma {:induction false} OrderFrom(sds: seq<StageDefinition>, s: StageType, before: set<StageType>, prefix: seq<StageType>)
    returns (order: seq<StageType>)
    requires Roots(AnyMode(sds), s, before) && Orders(ReadyTriggers, sds, before, prefix)
    ensures Orders(ReadyTriggers, sds, before, order) && before <= Members(order)
    decreases |before - Members(prefix)|
  {
    order := prefix;
    if !(before <= Members(prefix)) {
      var sd := NextListed(sds, s, before, Members(prefix));
      assert Supported(sds, Members(prefix), sd.stageType);
      var more := prefix + [sd.stageType];
      assert more[..|prefix|] == prefix;
      LastMember(more);
      FewerUnlisted(before, Members(prefix), sd.stageType);
      order := OrderFrom(sds, s, before, more);
    }
  }

  lemma FewerUnlisted(before: set<StageType>, listed: set<StageType>, t: StageType)
    requires t in before && t !in listed
    ensures |before - (listed + {t})| < |before - listed|
  {
    Subset(before - (listed + {t}), before - listed);
    assert t in before - listed;
  }

  lemma NextListed(sds: seq<StageDefinition>, s: StageType, before: set<StageType>,
                   listed: set<StageType>) returns (sd: StageDefinition)
    requires Roots(AnyMode(sds), s, before) && !(before <= listed)
    ensures sd in sds && sd.predecessors <= listed && sd.stageType in before && sd.stageType !in listed
  {
    var any := AnyMode(sds);
    var reached := listed + (AllStages() - before);
    if ClosedSet(any, reached) {
      assert before <= reached;
      Inside(before, listed);
      assert false;
    }
    var a :| a in any && a.trigger == Automatic && a.predecessors <= reached && a.stageType !in reached;
    var i :| 0 <= i < |any| && any[i] == a;
    sd := sds[i];
    assert a.predecessors <= before;
  }

  /** With a rival that is not dispatched, triggering it comes on top. */
  lemma SeriesExceeds(scope: Scope, ex: Executors, sds: seq<StageDefinition>, s: StageType, u: StageType, before: set<StageType>,
                      order: seq<StageType>) returns (requests: seq<Request>)
    requires Rivals(sds, s, u, before) && Decides(ex, u, before) && Orders(scope, sds, before, order)
    requires scope != NoTriggers && before <= Members(order)
    requires scope == ReadyTriggers ==> Supported(sds, Members(order), u)
    ensures !Within(scope, ex, [Template(Flood, Published, sds)], requests, 0, sds, s)
  {
    requests := OrderLeads(scope, ex, sds, s, u, before, order);
    if !Hangs(sds, before, u) {
      LastExceeds(scope, ex, sds, s, u, before, requests, Members(order));
      requests := requests + [TriggerStage(0, 0, u, "u")];
    }
  }

  lemma LastExceeds(scope: Scope, ex: Executors, sds: seq<StageDefinition>, s: StageType, u: StageType, before: set<StageType>,
                    requests: seq<Request>, done: set<StageType>)
    requires Leading(scope, ex, sds, s, u, before, requests, done) && !Hangs(sds, before, u)
    requires scope != NoTriggers && before <= done && (scope == ReadyTriggers ==> Supported(sds, done, u))
    ensures !Within(scope, ex, [Template(Flood, Published, sds)], requests + [TriggerStage(0, 0, u, "u")], 0, sds, s)
  {
    var templates := [Template(Flood, Published, sds)];
    var w, last := ServeAll(ex, Empty(templates), requests), TriggerStage(0, 0, u, "u");
    OneMoreRequest(ex, Empty(templates), requests, last);
    TriggerObeys(scope, ex, w, sds, s, u, before, done, u);
    OneMoreObeys(scope, ex, templates, requests, last, 0, s);
    RivalTriggered(ex, w, sds, s, u, before, done);
  }

  lemma RivalTriggered(ex: Executors, w: World, sds: seq<StageDefinition>, s: StageType, u: StageType,
                       before: set<StageType>, done: set<StageType>)
    requires UnderWay(ex, w, sds, s, u, before, done) && !Hangs(sds, before, u) && before <= done
    ensures var w' := Execute(ex, w, 0, 0, u, "u").world;
      BoundTo(w', 0, sds) && !WithinBudget(sds, s, AttemptsOf(w', 0, s))
  {
    RivalsListed(sds, s, u, before);
    WithinBudgetIs(sds, s);
    assert ProgressOf(w, 0).Status(u) == NotStarted;
    RivalCompletes(ex, w, 0, 0, sds, s, u, before, "u");
    ExecuteMid(ex, w, 0, 0, u, sds, s, u, before, "u");
  }

  // ---- The exact condition ----

  predicate IsAutomatic(sds: seq<StageDefinition>, s: StageType) {
    exists sd <- sds :: sd.stageType == s && sd.trigger == Automatic
  }

  /** An automatic stage whose predecessors can all complete within the scope. */
  ghost predicate Reached(scope: Scope, sds: seq<StageDefinition>, s: StageType) {
    IsAutomatic(sds, s) && (scope != AnyTriggers ==> s in AutomaticClosure(Reaching(scope, sds)))
  }

  /** After the series the stage of an assessment on this template was attempted within its budget, if nobody
      triggered it and other stages were triggered only as the scope says. */
  ghost predicate Within(scope: Scope, ex: Executors, templates: seq<Template>, requests: seq<Request>, id: nat,
                         sds: seq<StageDefinition>, s: StageType)
  {
    var w := ServeAll(ex, Empty(templates), requests);
    Obedient(scope, ex, templates, requests, id, s) && BoundTo(w, id, sds) ==> WithinBudget(sds, s, AttemptsOf(w, id, s))
  }

  ghost predicate KeepsBudget(scope: Scope, sds: seq<StageDefinition>, s: StageType) {
    forall ex: Executors, templates: seq<Template>, requests: seq<Request>, id: nat ::
      Within(scope, ex, templates, requests, id, sds, s)
  }

  lemma BudgetKept(scope: Scope, sds: seq<StageDefinition>, s: StageType)
    requires Guarded(scope, sds, s)
    ensures KeepsBudget(scope, sds, s)
  {
    forall ex: Executors, templates: seq<Template>, requests: seq<Request>, id: nat
      ensures Within(scope, ex, templates, requests, id, sds, s)
    {
      if Obedient(scope, ex, templates, requests, id, s) { SeriesKept(scope, ex, templates, requests, id, sds, s); }
    }
  }

  lemma ExceededByStart(sds: seq<StageDefinition>, s: StageType)
    requires DistinctTypes(sds) && (forall sd <- sds :: sd.Valid())
    requires s in AutomaticClosure(sds) && !Confined(sds, s)
    ensures !KeepsBudget(NoTriggers, sds, s)
  {
    var u, before := FindRival(sds, s);
    var ex := Adversary(u, before);
    var templates := [Template(Flood, Published, sds)];
    StartedUnderWay(ex, sds, s, u, before);
    StartedObeys(NoTriggers, ex, templates, s);
    ReadyAssessment(ex, templates);
    var w := ServeAll(ex, Empty(templates), READY_ASSESSMENT);
    OneMoreRequest(ex, Empty(templates), READY_ASSESSMENT, BeginWorkflow(0, 0, 0, "u"));
    StartedActive(w, 0, 0, 0, "u");
    FreshExceeds(ex, IssueStartWorkflow(w, 0, 0, 0, "u").value, 0, 0, sds, s, u, before);
    assert !Within(NoTriggers, ex, templates, STARTED, 0, sds, s);
  }

  lemma AutomaticHangs(sds: seq<StageDefinition>, s: StageType, before: set<StageType>)
    requires DistinctTypes(sds) && IsAutomatic(sds, s) && Hangs(AnyMode(sds), before, s)
    ensures Hangs(sds, before, s)
  {
    var any := AnyMode(sds);
    var a :| a in any && a.stageType == s && a.trigger == Automatic && a.predecessors <= before;
    var i :| 0 <= i < |any| && any[i] == a;
    var own :| own in sds && own.stageType == s && own.trigger == Automatic;
    SameDefinition(sds, sds[i], own);
  }

  lemma AnyModeValid(sds: seq<StageDefinition>)
    requires forall sd <- sds :: sd.Valid()
    ensures forall sd <- AnyMode(sds) :: sd.Valid()
  {
    forall sd <- AnyMode(sds) ensures sd.Valid() {
      var i :| 0 <= i < |sds| && AnyMode(sds)[i] == sd;
      assert sds[i].Valid();
    }
  }

  lemma HangingSupported(sds: seq<StageDefinition>, before: set<StageType>, done: set<StageType>, u: StageType)
    requires Hangs(AnyMode(sds), before, u) && before <= done
    ensures Supported(sds, done, u)
  {
    var any := AnyMode(sds);
    var a :| a in any && a.stageType == u && a.trigger == Automatic && a.predecessors <= before;
    var i :| 0 <= i < |any| && any[i] == a;
    assert sds[i] in sds;
  }

  lemma ExceededByReady(sds: seq<StageDefinition>, s: StageType)
    requires DistinctTypes(sds) && (forall sd <- sds :: sd.Valid())
    requires IsAutomatic(sds, s) && s in AutomaticClosure(AnyMode(sds)) && !Confined(AnyMode(sds), s)
    ensures !KeepsBudget(ReadyTriggers, sds, s)
  {
    AnyModeDistinct(sds);
    AnyModeValid(sds);
    var u, before := FindRival(AnyMode(sds), s);
    AutomaticHangs(sds, s, before);
    var ex := Adversary(u, before);
    var order := OrderFrom(sds, s, before, []);
    HangingSupported(sds, before, Members(order), u);
    var requests := SeriesExceeds(ReadyTriggers, ex, sds, s, u, before, order);
  }

  lemma {:induction false} AnyOrder(sds: seq<StageDefinition>, before: set<StageType>, order: seq<StageType>)
    requires forall t <- order :: t in before
    ensures Orders(AnyTriggers, sds, before, order)
  {
    if order != [] { AnyOrder(sds, before, order[..|order| - 1]); }
  }

  lemma ExceededByAny(sds: seq<StageDefinition>, s: StageType)
    requires DistinctTypes(sds) && (forall sd <- sds :: sd.Valid())
    requires IsAutomatic(sds, s) && !Undisturbed(AnyTriggers, sds, s)
    ensures !KeepsBudget(AnyTriggers, sds, s)
  {
    var own :| own in sds && own.stageType == s && own.trigger == Automatic;
    var sd :| sd in sds && sd.stageType == s && !(AllStages() - {s} <= sd.predecessors);
    SameDefinition(sds, sd, own);
    var u :| u in AllStages() - {s} && u !in own.predecessors;
    var before := own.predecessors;
    assert own.Valid();
    var ex := Adversary(u, before);
    var order := Sorted(before);
    AnyOrder(sds, before, order);
    var requests := SeriesExceeds(AnyTriggers, ex, sds, s, u, before, order);
  }

  /** Over all series in which nobody triggers the stage, the retry budget bounds its attempts if and only if
      whatever can complete without it comes before it: transitively, among what dispatch can reach if
      nothing is triggered, and among all of the template if users trigger stages that are ready; directly,
      and for every stage type there is, if users trigger anything. */
  lemma BudgetKeptIff(scope: Scope, sds: seq<StageDefinition>, s: StageType)
    requires DistinctTypes(sds) && (forall sd <- sds :: sd.Valid()) && Reached(scope, sds, s)
    ensures KeepsBudget(scope, sds, s) <==> Undisturbed(scope, sds, s)
  {
    if Undisturbed(scope, sds, s) {
      BudgetKept(scope, sds, s);
    } else {
      match scope
      case NoTriggers => ExceededByStart(sds, s);
      case ReadyTriggers => ExceededByReady(sds, s);
      case AnyTriggers => ExceededByAny(sds, s);
    }
  }

  // ---- The bound that always holds ----

  ghost predicate ExcessIn(w: World, id: nat, sds: seq<StageDefinition>, s: StageType) {
    BoundTo(w, id, sds) ==> Excess(sds, ProgressOf(w, id), s) <= MaxAttempts(Some(sds), s)
  }

  predicate Plain(sds: seq<StageDefinition>, s: StageType) {
    DistinctTypes(sds) && (forall sd <- sds :: sd.Valid()) && s in Types(sds)
  }

  lemma BeginExcess(ex: Executors, w: World, tenant: nat, id: nat, template: nat, actor: string,
                    sds: seq<StageDefinition>, s: StageType)
    requires Plain(sds, s) && ExcessIn(w, id, sds, s)
    ensures ExcessIn(StartAll(ex, w, tenant, id, template, actor).world, id, sds, s)
  {
    if IssueStartWorkflow(w, tenant, id, template, actor).Ok? {
      StartedBound(ex, w, tenant, id, template, actor);
      if w.templates[template].stages == sds {
        StartedActive(w, tenant, id, template, actor);
        var started := IssueStartWorkflow(w, tenant, id, template, actor).value;
        DispatchExcess(ex, started, tenant, id, sds, s);
        assert ProgressOf(started, id).Get(s) == FreshEntry(s);
        assert Definition(sds, s).value.Valid();
      }
    }
  }

  lemma TriggerExcess(ex: Executors, w: World, tenant: nat, id: nat, t: StageType, actor: string,
                      sds: seq<StageDefinition>, s: StageType)
    requires Plain(sds, s) && ExcessIn(w, id, sds, s) && t != s
    ensures ExcessIn(Execute(ex, w, tenant, id, t, actor).world, id, sds, s)
  {
    AttemptEffect(ex, w, tenant, id, t, actor);
    if Attemptable(w, tenant, id, t) {
      TriggerKeepsBinding(ex, w, tenant, id, t, actor);
      if BoundTo(w, id, sds) { ExecuteExcess(ex, w, tenant, id, t, actor, sds, s); }
    }
  }

  lemma SameExcess(w: World, w': World, id: nat, sds: seq<StageDefinition>, s: StageType)
    requires ExcessIn(w, id, sds, s)
    requires BoundTo(w', id, sds) ==> BoundTo(w, id, sds) && ProgressOf(w', id) == ProgressOf(w, id)
    ensures ExcessIn(w', id, sds, s)
  {}

  lemma ServeExcess(ex: Executors, w: World, request: Request, id: nat, sds: seq<StageDefinition>, s: StageType)
    requires Plain(sds, s) && ExcessIn(w, id, sds, s) && ObeysScope(AnyTriggers, w, request, id, s)
    ensures ExcessIn(Serve(ex, w, request).world, id, sds, s)
  {
    match request
    case Create(tenant, name, hazard, actor) => SameExcess(w, Serve(ex, w, request).world, id, sds, s);
    case ChangeStatus(tenant, k, cmd) =>
      if Issue(w, tenant, k, cmd).Ok? {
        if k == id { ChangeKeepsBinding(w, tenant, k, cmd); }
        SameExcess(w, Issue(w, tenant, k, cmd).value, id, sds, s);
      }
    case BeginWorkflow(tenant, k, template, actor) =>
      if k == id { BeginExcess(ex, w, tenant, k, template, actor, sds, s); }
      else {
        StartTouchesOne(ex, w, tenant, k, template, actor);
        SameExcess(w, StartAll(ex, w, tenant, k, template, actor).world, id, sds, s);
      }
    case TriggerStage(tenant, k, t, actor) =>
      if k == id { TriggerExcess(ex, w, tenant, k, t, actor, sds, s); }
      else {
        TriggerTouchesOne(ex, w, tenant, k, t, actor);
        SameExcess(w, Execute(ex, w, tenant, k, t, actor).world, id, sds, s);
      }
  }

  lemma {:induction false} SeriesExcess(ex: Executors, templates: seq<Template>, requests: seq<Request>, id: nat,
                                        sds: seq<StageDefinition>, s: StageType)
    requires Plain(sds, s) && Obedient(AnyTriggers, ex, templates, requests, id, s)
    ensures ExcessIn(ServeAll(ex, Empty(templates), requests), id, sds, s)
  {
    if requests != [] {
      var n := |requests| - 1;
      SeriesExcess(ex, templates, requests[..n], id, sds, s);
      ServeExcess(ex, ServeAll(ex, Empty(templates), requests[..n]), requests[n], id, sds, s);
    }
  }

  /** Over every series in which nobody triggers the stage itself, whatever else is triggered, it is attempted
      at most as often as its budget plus once for each other stage type. */
  lemma {:induction false} SeriesBounded(ex: Executors, templates: seq<Template>, requests: seq<Request>, id: nat,
                                         sds: seq<StageDefinition>, s: StageType)
    requires Plain(sds, s) && Obedient(AnyTriggers, ex, templates, requests, id, s)
    requires BoundTo(ServeAll(ex, Empty(templates), requests), id, sds)
    ensures forall sd <- sds :: sd.stageType == s ==>
      AttemptsOf(ServeAll(ex, Empty(templates), requests), id, s) <= sd.maxAttempts + |AllStages()| - 1
  {
    forall sd <- sds | sd.stageType == s ensures MaxAttempts(Some(sds), s) == sd.maxAttempts { OwnDefinition(sds, sd); }
    SeriesExcess(ex, templates, requests, id, sds, s);
    OthersFew(ProgressOf(ServeAll(ex, Empty(templates), requests), id).Completed(), s);
  }

  lemma OthersFew(completed: set<StageType>, s: StageType)
    ensures |completed - {s}| <= |AllStages()| - 1
  {
    Subset(completed - {s}, AllStages() - {s});
  }

  // ---- Two small templates ----

  const AUTOMATIC_ALONE: seq<StageDefinition> := [StageDefinition(Hazard, {}, Automatic, 1)]
  const BESIDE_MANUAL: seq<StageDefinition> := AUTOMATIC_ALONE + [StageDefinition(Exposure, {}, Manual, 1)]

  /** Beside an independent manual stage the budget holds until someone triggers that stage. */
  lemma ManualStageBreaksBudget()
    ensures KeepsBudget(NoTriggers, BESIDE_MANUAL, Hazard) && !KeepsBudget(ReadyTriggers, BESIDE_MANUAL, Hazard)
  {
    var sds := BESIDE_MANUAL;
    var any := AnyMode(sds);
    RootReached(sds, Hazard);
    RootReached(any, Hazard);
    NothingWithout(OthersOf(sds, Hazard));
    BudgetKeptIff(NoTriggers, sds, Hazard);
    RootReached(OthersOf(any, Hazard), Exposure);
    NoAncestors(any, Hazard);
    BudgetKeptIff(ReadyTriggers, sds, Hazard);
  }

  /** Alone on its template, it holds until someone triggers a type that the template does not have. */
  lemma ForeignStageBreaksBudget()
    ensures KeepsBudget(ReadyTriggers, AUTOMATIC_ALONE, Hazard) && !KeepsBudget(AnyTriggers, AUTOMATIC_ALONE, Hazard)
  {
    var sds := AUTOMATIC_ALONE;
    assert AnyMode(sds)[0] in AnyMode(sds);
    RootReached(AnyMode(sds), Hazard);
    assert OthersOf(AnyMode(sds), Hazard) == [];
    NothingWithout(OthersOf(AnyMode(sds), Hazard));
    BudgetKeptIff(ReadyTriggers, sds, Hazard);
    assert sds[0] in sds && Exposure in AllStages() - {Hazard};
    BudgetKeptIff(AnyTriggers, sds, Hazard);
  }

  /** An automatic stage without predecessors is reached. */
  lemma RootReached(sds: seq<StageDefinition>, t: StageType)
    requires exists sd <- sds :: sd.stageType == t && sd.trigger == Automatic && sd.predecessors == {}
    ensures t in AutomaticClosure(sds)
  {
    ClosureIsLeast(sds);
  }

  lemma NothingWithout(others: seq<StageDefinition>)
    requires forall sd <- others :: sd.trigger == Manual
    ensures AutomaticClosure(others) == {}
  {
    ClosureIsLeast(others);
    assert ClosedSet(others, {});
  }

  lemma NoAncestors(sds: seq<StageDefinition>, s: StageType)
    requires forall sd <- sds :: sd.stageType == s ==> sd.predecessors == {}
    ensures Ancestors(sds, s) == {}
  {
    AncestorsAreLeast(sds, s);
    assert AncestralSet(sds, s, {});
  }
}
