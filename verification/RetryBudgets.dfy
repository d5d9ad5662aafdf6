/** When the retry budget bounds the attempts of a stage after all: exactly when everything that can
    complete without the stage must complete before it, which depends on what users may trigger. */
module RetryBudgets {
  import opened Results
  import opened Stages
  import opened Templates
  import opened Platform
  import opened Engine
  import opened EngineRuns
  import opened EngineTheorems
  import opened AttemptBounds
  import opened Requests
  import opened WorkflowGuarantees

  // ---- The condition, on the template alone ----

  /** What users trigger on the assessment: nothing; only stages that are ready; or any stage type. */
  datatype Scope = NoTriggers | ReadyTriggers | AnyTriggers

  /** The template with every stage automatic. */
  function AnyMode(sds: seq<StageDefinition>): (r: seq<StageDefinition>)
    ensures |r| == |sds| && forall i :: 0 <= i < |sds| ==> r[i] == sds[i].(trigger := Automatic)
  {
    seq(|sds|, i requires 0 <= i < |sds| => sds[i].(trigger := Automatic))
  }

  /** Definitions by which stages can complete without breaking the scope's rule. */
  function Reaching(scope: Scope, sds: seq<StageDefinition>): seq<StageDefinition> {
    if scope == NoTriggers then sds else AnyMode(sds)
  }

  /** The stages that may be attempted. */
  predicate Allowed(scope: Scope, sds: seq<StageDefinition>, p: WorkflowProgress, t: StageType) {
    match scope
    case NoTriggers => Eligible(sds, p, t)
    case ReadyTriggers => PredecessorsMet(sds, p, t)
    case AnyTriggers => true
  }

  function OthersOf(sds: seq<StageDefinition>, s: StageType): (r: seq<StageDefinition>)
    ensures forall sd :: sd in r <==> sd in sds && sd.stageType != s
  {
    if sds == [] then []
    else (if sds[0].stageType != s then [sds[0]] else []) + OthersOf(sds[1..], s)
  }

  /** What the dispatch rule can complete while `s` is not COMPLETE. */
  ghost function ReachableWithout(sds: seq<StageDefinition>, s: StageType): set<StageType> {
    AutomaticClosure(OthersOf(sds, s))
  }

  /** Holds the predecessors of `s` and of its own members. */
  predicate AncestralSet(sds: seq<StageDefinition>, s: StageType, stages: set<StageType>) {
    forall sd <- sds :: sd.stageType == s || sd.stageType in stages ==> sd.predecessors <= stages
  }

  ghost predicate InEveryAncestralSet(sds: seq<StageDefinition>, s: StageType, t: StageType) {
    forall stages: set<StageType> {:trigger AncestralSet(sds, s, stages)} :: AncestralSet(sds, s, stages) ==> t in stages
  }

  /** The transitive predecessors of `s`. */
  ghost function Ancestors(sds: seq<StageDefinition>, s: StageType): set<StageType> {
    set t: StageType | InEveryAncestralSet(sds, s, t)
  }

  lemma AncestorsAreLeast(sds: seq<StageDefinition>, s: StageType)
    ensures AncestralSet(sds, s, Ancestors(sds, s))
    ensures forall stages :: AncestralSet(sds, s, stages) ==> Ancestors(sds, s) <= stages
  {
    forall sd <- sds | sd.stageType == s || sd.stageType in Ancestors(sds, s)
      ensures sd.predecessors <= Ancestors(sds, s)
    {
      forall p <- sd.predecessors, stages: set<StageType> | AncestralSet(sds, s, stages) ensures p in stages {
        assert sd.stageType in Ancestors(sds, s) ==> InEveryAncestralSet(sds, s, sd.stageType);
      }
    }
  }

  /** Nothing else can complete between the first attempt of `s` and its completion: all that can complete
      without it are transitive predecessors; and if anything may be triggered, direct ones. */
  ghost predicate Undisturbed(scope: Scope, sds: seq<StageDefinition>, s: StageType) {
    if scope == AnyTriggers then forall sd <- sds :: sd.stageType == s ==> AllStages() - {s} <= sd.predecessors
    else Confined(Reaching(scope, sds), s)
  }

  ghost predicate Confined(sds: seq<StageDefinition>, s: StageType) {
    ReachableWithout(sds, s) <= Ancestors(sds, s)
  }

  // ---- What holds all along a run ----

  ghost predicate Ordinary(scope: Scope, sds: seq<StageDefinition>, p: WorkflowProgress, s: StageType) {
    scope != AnyTriggers ==> Orderly(Reaching(scope, sds), p, s)
  }

  /** COMPLETE stages have COMPLETE predecessors, and while `s` is not COMPLETE they are reachable without it. */
  ghost predicate Orderly(sds: seq<StageDefinition>, p: WorkflowProgress, s: StageType) {
    && (forall sd <- sds :: sd.stageType in p.Completed() ==> sd.predecessors <= p.Completed())
    && (s !in p.Completed() ==> p.Completed() <= ReachableWithout(sds, s))
  }

  lemma AnyModeEligible(sds: seq<StageDefinition>, p: WorkflowProgress, t: StageType)
    ensures Eligible(AnyMode(sds), p, t) <==> PredecessorsMet(sds, p, t)
  {
    var any := AnyMode(sds);
    if PredecessorsMet(sds, p, t) {
      var sd :| sd in sds && sd.stageType == t && p.AllComplete(sd.predecessors);
      var i :| 0 <= i < |sds| && sds[i] == sd;
      assert any[i] in any;
    }
    if Eligible(any, p, t) {
      var sd :| sd in any && sd.stageType == t && sd.trigger == Automatic && p.AllComplete(sd.predecessors);
      var i :| 0 <= i < |any| && any[i] == sd;
      assert sds[i] in sds;
    }
  }

  lemma AnyModeDistinct(sds: seq<StageDefinition>)
    requires DistinctTypes(sds)
    ensures DistinctTypes(AnyMode(sds))
  {}

  lemma AllowedIsEligible(scope: Scope, sds: seq<StageDefinition>, p: WorkflowProgress, t: StageType)
    requires DistinctTypes(sds)
    ensures DistinctTypes(Reaching(scope, sds))
    ensures scope != AnyTriggers ==> (Allowed(scope, sds, p, t) <==> Eligible(Reaching(scope, sds), p, t))
    ensures Eligible(sds, p, t) ==> Allowed(scope, sds, p, t)
  {
    AnyModeEligible(sds, p, t);
    AnyModeDistinct(sds);
  }

  lemma AllowedGrows(scope: Scope, sds: seq<StageDefinition>, p: WorkflowProgress, p': WorkflowProgress, t: StageType)
    requires DistinctTypes(sds) && p.Completed() <= p'.Completed() && Allowed(scope, sds, p, t)
    ensures Allowed(scope, sds, p', t)
  {
    AllowedIsEligible(scope, sds, p, t);
    AllowedIsEligible(scope, sds, p', t);
    if scope != AnyTriggers { EligibleGrows(Reaching(scope, sds), p, p', t); }
  }

  lemma EligibleUnique(sds: seq<StageDefinition>, p: WorkflowProgress, s: StageType)
    requires DistinctTypes(sds) && Eligible(sds, p, s)
    ensures forall sd <- sds :: sd.stageType == s ==> sd.trigger == Automatic && sd.predecessors <= p.Completed()
  {
    var e :| e in sds && e.stageType == s && e.trigger == Automatic && p.AllComplete(e.predecessors);
    forall sd <- sds | sd.stageType == s ensures sd == e { SameDefinition(sds, sd, e); }
    CompleteAll(p, e.predecessors);
  }

  lemma SameDefinition(sds: seq<StageDefinition>, a: StageDefinition, b: StageDefinition)
    requires DistinctTypes(sds) && a in sds && b in sds && a.stageType == b.stageType
    ensures a == b
  {
    var i :| 0 <= i < |sds| && sds[i] == a;
    var j :| 0 <= j < |sds| && sds[j] == b;
    if i < j { assert false; }
    if j < i { assert false; }
  }

  lemma CompletionKeepsOrderly(sds: seq<StageDefinition>, p: WorkflowProgress, p': WorkflowProgress, s: StageType, t: StageType)
    requires DistinctTypes(sds) && Orderly(sds, p, s) && Eligible(sds, p, t)
    requires p'.Completed() == p.Completed() + {t}
    ensures Orderly(sds, p', s)
  {
    EligibleUnique(sds, p, t);
    if s !in p'.Completed() {
      var sd :| sd in sds && sd.stageType == t && sd.trigger == Automatic && p.AllComplete(sd.predecessors);
      ClosureIsLeast(OthersOf(sds, s));
      assert sd in OthersOf(sds, s);
    }
  }

  lemma StepKeepsOrdinary(scope: Scope, ex: Executors, w: World, w': World, tenant: nat, id: nat,
                          sds: seq<StageDefinition>, manual: set<StageType>, s: StageType)
    requires EngineStep(ex, w, w', tenant, id, sds, manual) && DistinctTypes(sds) && Ordinary(scope, sds, ProgressOf(w, id), s)
    requires forall t <- manual :: Allowed(scope, sds, ProgressOf(w, id), t)
    ensures Ordinary(scope, sds, ProgressOf(w', id), s) && ProgressOf(w, id).Completed() <= ProgressOf(w', id).Completed()
  {
    if !LegalAdvance(w, w', tenant, id, sds) {
      var t, actor :| LegalAttempt(ex, w, w', tenant, id, sds, manual, t, actor);
      var success := Attempt(ex, w, tenant, id, t, actor).1;
      AttemptEffect(ex, w, tenant, id, t, actor);
      CompletedAfter(ProgressOf(w, id), ProgressOf(w', id), t, success);
      AllowedIsEligible(scope, sds, ProgressOf(w, id), t);
      if success && scope != AnyTriggers {
        CompletionKeepsOrderly(Reaching(scope, sds), ProgressOf(w, id), ProgressOf(w', id), s, t);
      }
    }
  }

  lemma {:induction false} PathKeepsOrdinary(scope: Scope, ex: Executors, tenant: nat, id: nat, sds: seq<StageDefinition>,
                                             manual: set<StageType>, ws: seq<World>, s: StageType)
    requires Path(ex, tenant, id, sds, manual, ws) && DistinctTypes(sds) && Ordinary(scope, sds, ProgressOf(ws[0], id), s)
    requires forall t <- manual :: Allowed(scope, sds, ProgressOf(ws[0], id), t)
    ensures var p, p' := ProgressOf(ws[0], id), ProgressOf(ws[|ws| - 1], id);
      Ordinary(scope, sds, p', s) && p.Completed() <= p'.Completed()
  {
    if |ws| > 1 {
      var n := |ws| - 1;
      LastStep(ex, tenant, id, sds, manual, ws);
      PathKeepsOrdinary(scope, ex, tenant, id, sds, manual, ws[..n], s);
      forall t <- manual ensures Allowed(scope, sds, ProgressOf(ws[n - 1], id), t) {
        AllowedGrows(scope, sds, ProgressOf(ws[0], id), ProgressOf(ws[n - 1], id), t);
      }
      StepKeepsOrdinary(scope, ex, ws[n - 1], ws[n], tenant, id, sds, manual, s);
    }
  }

  lemma ConfinedItself(sds: seq<StageDefinition>, p: WorkflowProgress, s: StageType, t: StageType)
    requires DistinctTypes(sds) && Orderly(sds, p, s) && Confined(sds, s)
    requires Eligible(sds, p, s) && s !in p.Completed() && Eligible(sds, p, t) && t != s
    ensures t in p.Completed()
  {
    EligibleUnique(sds, p, s);
    AncestorsAreLeast(sds, s);
    assert AncestralSet(sds, s, p.Completed());
    ClosureIsLeast(OthersOf(sds, s));
    var sd :| sd in sds && sd.stageType == t && sd.trigger == Automatic && p.AllComplete(sd.predecessors);
    CompleteAll(p, sd.predecessors);
    assert sd in OthersOf(sds, s);
  }

  /** Once `s` is eligible, every other stage that may be attempted is COMPLETE already, until `s` is. */
  lemma OnlyItself(scope: Scope, sds: seq<StageDefinition>, p: WorkflowProgress, s: StageType, t: StageType)
    requires DistinctTypes(sds) && Ordinary(scope, sds, p, s) && Undisturbed(scope, sds, s)
    requires Eligible(sds, p, s) && s !in p.Completed() && Allowed(scope, sds, p, t) && t != s
    ensures t in p.Completed()
  {
    if scope == AnyTriggers {
      var sd :| sd in sds && sd.stageType == s && sd.trigger == Automatic && p.AllComplete(sd.predecessors);
      assert t in sd.predecessors;
    } else {
      AllowedIsEligible(scope, sds, p, t);
      AllowedIsEligible(scope, sds, p, s);
      ConfinedItself(Reaching(scope, sds), p, s, t);
    }
  }

  // ---- The budget is kept ----

  /** Untouched, eligible or COMPLETE; and within its budget. */
  predicate Budgeted(sds: seq<StageDefinition>, p: WorkflowProgress, s: StageType) {
    && (p.Get(s) == FreshEntry(s) || Eligible(sds, p, s) || p.Status(s) == StageStatus.Complete)
    && WithinBudget(sds, s, p.Get(s).attempts)
  }

  /** A template, and a stage of it to which the condition applies. */
  ghost predicate Guarded(scope: Scope, sds: seq<StageDefinition>, s: StageType) {
    && DistinctTypes(sds) && (forall sd <- sds :: sd.Valid())
    && s in Types(sds) && Undisturbed(scope, sds, s)
  }

  lemma BudgetPositive(scope: Scope, sds: seq<StageDefinition>, s: StageType)
    requires Guarded(scope, sds, s)
    ensures MaxAttempts(Some(sds), s) >= 1
    ensures forall attempts: nat :: WithinBudget(sds, s, attempts) <==> attempts <= MaxAttempts(Some(sds), s)
  {
    WithinBudgetIs(sds, s);
    assert Definition(sds, s).value.Valid();
  }

  lemma FrozenBudgeted(sds: seq<StageDefinition>, p: WorkflowProgress, p': WorkflowProgress, s: StageType)
    requires Budgeted(sds, p, s) && p.Status(s) == StageStatus.Complete && Grows(p, p')
    ensures Budgeted(sds, p', s)
  {
    assert Moves(p.Get(s), p'.Get(s));
  }

  /** Attempts of `s` itself: its own retries stay within the budget, and completing ends them. */
  lemma {:induction false} OwnBudget(scope: Scope, ex: Executors, w: World, tenant: nat, id: nat,
                                     sds: seq<StageDefinition>, s: StageType)
    requires Guarded(scope, sds, s) && Active(w, tenant, id, sds) && Attemptable(w, tenant, id, s)
    requires Eligible(sds, ProgressOf(w, id), s) && ProgressOf(w, id).Get(s).attempts < MaxAttempts(Some(sds), s)
    ensures Budgeted(sds, ProgressOf(Execute(ex, w, tenant, id, s, SYSTEM_ACTOR).world, id), s)
    decreases RetriesLeft(w, id, s)
  {
    BudgetPositive(scope, sds, s);
    AttemptEffect(ex, w, tenant, id, s, SYSTEM_ACTOR);
    AttemptProgresses(ex, w, tenant, id, sds, s, SYSTEM_ACTOR);
    var (r, success) := Attempt(ex, w, tenant, id, s, SYSTEM_ACTOR);
    EligibleGrows(sds, ProgressOf(w, id), ProgressOf(r.world, id), s);
    if success {
      CompletedGrows(ex, r.world, tenant, id, sds);
      FrozenBudgeted(sds, ProgressOf(r.world, id), ProgressOf(OnCompleted(ex, r.world, tenant, id).world, id), s);
    } else if RetriesLeft(r.world, id, s) > 0 {
      OwnBudget(scope, ex, r.world, tenant, id, sds, s);
    }
  }

  /** A run that starts before `s` was eligible. */
  predicate NotYet(sds: seq<StageDefinition>, p: WorkflowProgress, s: StageType) {
    p.Get(s) == FreshEntry(s) && !Eligible(sds, p, s)
  }

  /** An attempt of another stage leaves `s` as it was; it becomes eligible only if the attempt succeeds. */
  lemma OtherAttempt(scope: Scope, ex: Executors, w: World, tenant: nat, id: nat, sds: seq<StageDefinition>,
                     s: StageType, t: StageType, actor: string)
    requires DistinctTypes(sds) && Active(w, tenant, id, sds) && Attemptable(w, tenant, id, t) && t != s
    requires Allowed(scope, sds, ProgressOf(w, id), t) && Ordinary(scope, sds, ProgressOf(w, id), s)
    ensures var (r, success) := Attempt(ex, w, tenant, id, t, actor);
      var p, p' := ProgressOf(w, id), ProgressOf(r.world, id);
      && p'.Get(s) == p.Get(s) && Ordinary(scope, sds, p', s) && Allowed(scope, sds, p', t)
      && (!success ==> (Eligible(sds, p, s) <==> Eligible(sds, p', s)))
  {
    AttemptEffect(ex, w, tenant, id, t, actor);
    AttemptProgresses(ex, w, tenant, id, sds, t, actor);
    var (r, success) := Attempt(ex, w, tenant, id, t, actor);
    var p, p' := ProgressOf(w, id), ProgressOf(r.world, id);
    FirstStep(ex, w, tenant, id, t, actor, sds, {t});
    StepKeepsOrdinary(scope, ex, w, r.world, tenant, id, sds, {t}, s);
    AllowedGrows(scope, sds, p, p', t);
    if !success { SameEligible(sds, p, p', s); }
  }

  /** Another stage runs, dispatched or triggered. */
  lemma {:induction false} OtherBudget(scope: Scope, ex: Executors, w: World, tenant: nat, id: nat, sds: seq<StageDefinition>,
                                       s: StageType, t: StageType, actor: string)
    requires Guarded(scope, sds, s) && Active(w, tenant, id, sds) && Attemptable(w, tenant, id, t) && t != s
    requires Allowed(scope, sds, ProgressOf(w, id), t) && Ordinary(scope, sds, ProgressOf(w, id), s)
    requires NotYet(sds, ProgressOf(w, id), s)
    ensures Budgeted(sds, ProgressOf(Execute(ex, w, tenant, id, t, actor).world, id), s)
    decreases Remaining(w, id), 0, 2 * RetriesLeft(w, id, t) + 1, 0
  {
    BudgetPositive(scope, sds, s);
    OtherAttempt(scope, ex, w, tenant, id, sds, s, t, actor);
    AttemptProgresses(ex, w, tenant, id, sds, t, actor);
    var (r, success) := Attempt(ex, w, tenant, id, t, actor);
    if success {
      DispatchBudget(scope, ex, r.world, tenant, id, sds, s);
    } else if RetriesLeft(r.world, id, t) > 0 {
      OtherBudget(scope, ex, r.world, tenant, id, sds, s, t, SYSTEM_ACTOR);
    }
  }

  lemma SameEligible(sds: seq<StageDefinition>, p: WorkflowProgress, p': WorkflowProgress, s: StageType)
    requires p.Completed() == p'.Completed()
    ensures Eligible(sds, p, s) <==> Eligible(sds, p', s)
  {
    if Eligible(sds, p, s) { EligibleGrows(sds, p, p', s); }
    if Eligible(sds, p', s) { EligibleGrows(sds, p', p, s); }
  }

  lemma {:induction false} DispatchBudget(scope: Scope, ex: Executors, w: World, tenant: nat, id: nat,
                                          sds: seq<StageDefinition>, s: StageType)
    requires Guarded(scope, sds, s) && Active(w, tenant, id, sds)
    requires Ordinary(scope, sds, ProgressOf(w, id), s) && ProgressOf(w, id).Get(s) == FreshEntry(s)
    ensures Budgeted(sds, ProgressOf(Dispatch(ex, w, tenant, id).world, id), s)
    ensures OnCompleted(ex, w, tenant, id) == Dispatch(ex, w, tenant, id)
    decreases Remaining(w, id), 2, 0, 0
  {
    var p := ProgressOf(w, id);
    var runnable := RunnableStages(sds, p);
    var list := AutomaticOf(runnable);
    BudgetPositive(scope, sds, s);
    RunnableDistinct(sds, p);
    AutomaticDistinct(runnable);
    forall sd <- list ensures Listed(sds, {}, p, sd) { assert sd in sds && Runnable(sd, p); }
    if s in Types(list) {
      var sd :| sd in list && sd.stageType == s;
      assert Listed(sds, {}, p, sd);
    }
    EachBudget(scope, ex, w, tenant, id, list, sds, s);
  }

  lemma {:induction false} EachBudget(scope: Scope, ex: Executors, w: World, tenant: nat, id: nat, rest: seq<StageDefinition>,
                                      sds: seq<StageDefinition>, s: StageType)
    requires Guarded(scope, sds, s) && Live(w, tenant, id, sds) && DistinctTypes(rest)
    requires forall sd <- rest :: Listed(sds, {}, ProgressOf(w, id), sd)
    requires Ordinary(scope, sds, ProgressOf(w, id), s) && Budgeted(sds, ProgressOf(w, id), s)
    requires s in Types(rest) ==> Eligible(sds, ProgressOf(w, id), s) && ProgressOf(w, id).Get(s) == FreshEntry(s)
    ensures Budgeted(sds, ProgressOf(DispatchEach(ex, w, tenant, id, rest).world, id), s)
    decreases Remaining(w, id), 1, |rest|, 0
  {
    if rest != [] {
      var p, t := ProgressOf(w, id), rest[0].stageType;
      TailTypes(rest);
      assert Listed(sds, {}, p, rest[0]);
      if !Startable(p.Status(t)) {
        EachBudget(scope, ex, w, tenant, id, rest[1..], sds, s);
      } else if p.Status(s) == StageStatus.Complete {
        FrozenEach(ex, w, tenant, id, rest, sds, s);
      } else {
        HeadBudget(scope, ex, w, tenant, id, rest, sds, s);
        var w' := Execute(ex, w, tenant, id, t, SYSTEM_ACTOR).world;
        FewerRemain(w, w', id);
        EachBudget(scope, ex, w', tenant, id, rest[1..], sds, s);
      }
    }
  }

  lemma FrozenEach(ex: Executors, w: World, tenant: nat, id: nat, rest: seq<StageDefinition>,
                   sds: seq<StageDefinition>, s: StageType)
    requires Live(w, tenant, id, sds) && forall sd <- rest :: Listed(sds, {}, ProgressOf(w, id), sd)
    requires Budgeted(sds, ProgressOf(w, id), s) && ProgressOf(w, id).Status(s) == StageStatus.Complete
    ensures Budgeted(sds, ProgressOf(DispatchEach(ex, w, tenant, id, rest).world, id), s)
  {
    ListedTypes(sds, {}, ProgressOf(w, id), rest);
    EachGrows(ex, w, tenant, id, rest, sds);
    FrozenBudgeted(sds, ProgressOf(w, id), ProgressOf(DispatchEach(ex, w, tenant, id, rest).world, id), s);
  }

  lemma ListedTypes(sds: seq<StageDefinition>, manual: set<StageType>, p: WorkflowProgress, rest: seq<StageDefinition>)
    requires forall sd <- rest :: Listed(sds, manual, p, sd)
    ensures Types(rest) <= Types(sds)
  {
    forall t <- Types(rest) ensures t in Types(sds) {
      var sd :| sd in rest && sd.stageType == t;
      assert Listed(sds, manual, p, sd);
    }
  }

  lemma StillListed(sds: seq<StageDefinition>, p: WorkflowProgress, p': WorkflowProgress, rest: seq<StageDefinition>)
    requires p.Completed() <= p'.Completed() && forall sd <- rest :: Listed(sds, {}, p, sd)
    ensures forall sd <- rest :: Listed(sds, {}, p', sd)
  {
    forall sd <- rest ensures Listed(sds, {}, p', sd) {
      assert Listed(sds, {}, p, sd);
      EligibleGrows(sds, p, p', sd.stageType);
    }
  }

  /** The first listed stage runs, while `s` is not COMPLETE. */
  lemma {:induction false} HeadBudget(scope: Scope, ex: Executors, w: World, tenant: nat, id: nat, rest: seq<StageDefinition>,
                                      sds: seq<StageDefinition>, s: StageType)
    requires Guarded(scope, sds, s) && Live(w, tenant, id, sds) && rest != [] && DistinctTypes(rest)
    requires forall sd <- rest :: Listed(sds, {}, ProgressOf(w, id), sd)
    requires Ordinary(scope, sds, ProgressOf(w, id), s) && Budgeted(sds, ProgressOf(w, id), s)
    requires s in Types(rest) ==> Eligible(sds, ProgressOf(w, id), s) && ProgressOf(w, id).Get(s) == FreshEntry(s)
    requires ProgressOf(w, id).Status(s) != StageStatus.Complete && Startable(ProgressOf(w, id).Status(rest[0].stageType))
    ensures var r := Execute(ex, w, tenant, id, rest[0].stageType, SYSTEM_ACTOR);
      var p' := ProgressOf(r.world, id);
      && r.error == None && Live(r.world, tenant, id, sds)
      && Ordinary(scope, sds, p', s) && Budgeted(sds, p', s) && s !in Types(rest[1..])
      && (forall sd <- rest[1..] :: Listed(sds, {}, p', sd))
    decreases Remaining(w, id), 1, |rest|, -1
  {
    var p, t := ProgressOf(w, id), rest[0].stageType;
    assert Listed(sds, {}, p, rest[0]);
    TailTypes(rest);
    assert Active(w, tenant, id, sds);
    var ws := ExecutePath(ex, w, tenant, id, t, SYSTEM_ACTOR, sds, {});
    PathKeepsOrdinary(scope, ex, tenant, id, sds, {}, ws, s);
    StillListed(sds, p, ProgressOf(Execute(ex, w, tenant, id, t, SYSTEM_ACTOR).world, id), rest[1..]);
    if Eligible(sds, p, s) {
      if t != s {
        AllowedIsEligible(scope, sds, p, t);
        OnlyItself(scope, sds, p, s, t);
        assert false;
      }
      BudgetPositive(scope, sds, s);
      OwnBudget(scope, ex, w, tenant, id, sds, s);
    } else {
      AllowedIsEligible(scope, sds, p, t);
      OtherBudget(scope, ex, w, tenant, id, sds, s, t, SYSTEM_ACTOR);
    }
  }

  /** Starting a workflow attempts the stage within its budget. */
  lemma {:induction false} StartBudget(scope: Scope, ex: Executors, w: World, tenant: nat, id: nat, template: nat,
                                       actor: string, s: StageType)
    requires IssueStartWorkflow(w, tenant, id, template, actor).Ok? && Guarded(scope, w.templates[template].stages, s)
    ensures var p := ProgressOf(StartAll(ex, w, tenant, id, template, actor).world, id);
      Budgeted(w.templates[template].stages, p, s) && Ordinary(scope, w.templates[template].stages, p, s)
  {
    var sds := w.templates[template].stages;
    var started := IssueStartWorkflow(w, tenant, id, template, actor).value;
    StartedActive(w, tenant, id, template, actor);
    assert ProgressOf(started, id).Completed() == {};
    DispatchBudget(scope, ex, started, tenant, id, sds, s);
    var ws := DispatchPath(ex, started, tenant, id, sds, {});
    PathKeepsOrdinary(scope, ex, tenant, id, sds, {}, ws, s);
  }

  /** Triggering another stage that the scope allows keeps it so. */
  lemma {:induction false} TriggerBudget(scope: Scope, ex: Executors, w: World, tenant: nat, id: nat, sds: seq<StageDefinition>,
                                         s: StageType, t: StageType, actor: string)
    requires Guarded(scope, sds, s) && Active(w, tenant, id, sds) && Attemptable(w, tenant, id, t) && t != s
    requires Allowed(scope, sds, ProgressOf(w, id), t)
    requires Ordinary(scope, sds, ProgressOf(w, id), s) && Budgeted(sds, ProgressOf(w, id), s)
    ensures var p' := ProgressOf(Execute(ex, w, tenant, id, t, actor).world, id);
      Budgeted(sds, p', s) && Ordinary(scope, sds, p', s)
  {
    var p := ProgressOf(w, id);
    var ws := ExecutePath(ex, w, tenant, id, t, actor, sds, {t});
    PathKeepsOrdinary(scope, ex, tenant, id, sds, {t}, ws, s);
    if p.Status(s) == StageStatus.Complete {
      ExecuteGrows(ex, w, tenant, id, t, actor, sds);
      FrozenBudgeted(sds, p, ProgressOf(Execute(ex, w, tenant, id, t, actor).world, id), s);
    } else if Eligible(sds, p, s) {
      OnlyItself(scope, sds, p, s, t);
      assert false;
    } else {
      OtherBudget(scope, ex, w, tenant, id, sds, s, t, actor);
    }
  }
}
