/** How often the engine can attempt a stage. Dispatch re-admits FAILED stages whose budget is
    spent, so the budget alone is no bound: each completion elsewhere may buy one more attempt. */
module AttemptBounds {
  import opened Results
  import opened Stages
  import opened Templates
  import opened Platform
  import opened Engine
  import opened EngineRuns
  import opened EngineTheorems

  predicate DistinctTypes(sds: seq<StageDefinition>) {
    forall i, j :: 0 <= i < j < |sds| ==> sds[i].stageType != sds[j].stageType
  }

  lemma {:induction false} RunnableDistinct(sds: seq<StageDefinition>, p: WorkflowProgress)
    requires DistinctTypes(sds)
    ensures DistinctTypes(RunnableStages(sds, p))
  {
    if sds != [] {
      RunnableDistinct(sds[1..], p);
      forall sd | sd in RunnableStages(sds[1..], p) ensures sd.stageType != sds[0].stageType { assert sd in sds[1..]; }
    }
  }

  lemma {:induction false} AutomaticDistinct(sds: seq<StageDefinition>)
    requires DistinctTypes(sds)
    ensures DistinctTypes(AutomaticOf(sds))
  {
    if sds != [] {
      AutomaticDistinct(sds[1..]);
      forall sd | sd in AutomaticOf(sds[1..]) ensures sd.stageType != sds[0].stageType { assert sd in sds[1..]; }
    }
  }

  /** A definition of the template is the one its type is looked up by. */
  lemma OwnDefinition(sds: seq<StageDefinition>, sd: StageDefinition)
    requires DistinctTypes(sds) && sd in sds
    ensures MaxAttempts(Some(sds), sd.stageType) == sd.maxAttempts
  {
    var i :| 0 <= i < |sds| && sds[i] == sd;
    FirstDefined(sds, i);
  }

  /** No more attempts than the stage's own definition allows. */
  predicate WithinBudget(sds: seq<StageDefinition>, s: StageType, attempts: nat) {
    forall sd <- sds :: sd.stageType == s ==> attempts <= sd.maxAttempts
  }

  lemma WithinBudgetIs(sds: seq<StageDefinition>, s: StageType)
    requires DistinctTypes(sds) && s in Types(sds)
    ensures forall attempts: nat :: WithinBudget(sds, s, attempts) <==> attempts <= MaxAttempts(Some(sds), s)
  {
    var own :| own in sds && own.stageType == s;
    OwnDefinition(sds, own);
    forall sd <- sds | sd.stageType == s ensures sd.maxAttempts == MaxAttempts(Some(sds), s) { OwnDefinition(sds, sd); }
  }

  function Max(a: int, b: int): int {
    if a >= b then a else b
  }

  /** The attempts of a stage, not counted below its budget less one, against the completions
      of the other stages. */
  function Excess(sds: seq<StageDefinition>, p: WorkflowProgress, s: StageType): int {
    Max(p.Get(s).attempts, MaxAttempts(Some(sds), s) - 1) - |p.Completed() - {s}|
  }

  predicate OneMoreAttempt(p: WorkflowProgress, p': WorkflowProgress, t: StageType, success: bool) {
    && Startable(p.Status(t))
    && p'.Get(t).attempts == p.Get(t).attempts + 1
    && p'.Status(t) == (if success then StageStatus.Complete else StageStatus.Failed)
    && (forall s :: s != t ==> p'.Get(s) == p.Get(s))
  }

  lemma CompletedAfter(p: WorkflowProgress, p': WorkflowProgress, t: StageType, success: bool)
    requires OneMoreAttempt(p, p', t, success)
    ensures t !in p.Completed()
    ensures p'.Completed() == if success then p.Completed() + {t} else p.Completed()
  {}

  lemma OneMore<T>(a: set<T>, t: T, s: T)
    requires t !in a && s != t
    ensures |(a + {t}) - {s}| == |a - {s}| + 1
  {
    assert (a + {t}) - {s} == (a - {s}) + {t};
  }

  /** One attempt of `t`: a completion lowers the excess of every other stage by one. */
  lemma OthersExcess(sds: seq<StageDefinition>, p: WorkflowProgress, p': WorkflowProgress, t: StageType,
                     success: bool, s: StageType)
    requires OneMoreAttempt(p, p', t, success) && s != t
    ensures Excess(sds, p', s) == Excess(sds, p, s) - (if success then 1 else 0)
  {
    CompletedAfter(p, p', t, success);
    OneMore(p.Completed(), t, s);
  }

  lemma OthersSame(p: WorkflowProgress, p': WorkflowProgress, t: StageType, success: bool)
    requires OneMoreAttempt(p, p', t, success)
    ensures p'.Completed() - {t} == p.Completed() - {t}
  {
    CompletedAfter(p, p', t, success);
  }

  lemma OwnExcess(sds: seq<StageDefinition>, p: WorkflowProgress, p': WorkflowProgress, t: StageType, success: bool)
    requires OneMoreAttempt(p, p', t, success)
    ensures Excess(sds, p', t) <= Excess(sds, p, t) + 1
    ensures p'.Get(t).attempts < MaxAttempts(Some(sds), t) ==> Excess(sds, p', t) == Excess(sds, p, t)
  {
    OthersSame(p, p', t, success);
  }

  lemma AttemptExcess(ex: Executors, w: World, tenant: nat, id: nat, t: StageType, actor: string,
                      sds: seq<StageDefinition>, s: StageType)
    requires Active(w, tenant, id, sds) && Attemptable(w, tenant, id, t)
    ensures var (r, success) := Attempt(ex, w, tenant, id, t, actor);
      var before, after := Excess(sds, ProgressOf(w, id), s), Excess(sds, ProgressOf(r.world, id), s);
      && (success ==> after <= before + (if s == t then 1 else -1))
      && (!success && s == t ==> after <= before + (if RetriesLeft(r.world, id, t) > 0 then 0 else 1))
      && (!success && s != t ==> after == before)
  {
    AttemptEffect(ex, w, tenant, id, t, actor);
    var (r, success) := Attempt(ex, w, tenant, id, t, actor);
    if s == t { OwnExcess(sds, ProgressOf(w, id), ProgressOf(r.world, id), t, success); }
    else { OthersExcess(sds, ProgressOf(w, id), ProgressOf(r.world, id), t, success, s); }
  }

  lemma {:induction false} ExecuteExcess(ex: Executors, w: World, tenant: nat, id: nat, t: StageType, actor: string,
                                         sds: seq<StageDefinition>, s: StageType)
    requires Active(w, tenant, id, sds) && Attemptable(w, tenant, id, t) && DistinctTypes(sds)
    ensures var w' := Execute(ex, w, tenant, id, t, actor).world;
      Excess(sds, ProgressOf(w', id), s) <= Excess(sds, ProgressOf(w, id), s) + (if s == t then 1 else 0)
    decreases Remaining(w, id), 0, 2 * RetriesLeft(w, id, t) + 1, 0
  {
    AttemptProgresses(ex, w, tenant, id, sds, t, actor);
    AttemptExcess(ex, w, tenant, id, t, actor, sds, s);
    var (r, success) := Attempt(ex, w, tenant, id, t, actor);
    if success {
      CompletedExcess(ex, r.world, tenant, id, sds, s);
    } else {
      FailedExcess(ex, r.world, tenant, id, t, sds, s);
    }
  }

  lemma {:induction false} CompletedExcess(ex: Executors, w: World, tenant: nat, id: nat, sds: seq<StageDefinition>, s: StageType)
    requires Active(w, tenant, id, sds) && DistinctTypes(sds)
    ensures var w' := OnCompleted(ex, w, tenant, id).world;
      Excess(sds, ProgressOf(w', id), s) <= Excess(sds, ProgressOf(w, id), s)
        + (if ProgressOf(w, id).Status(s) == StageStatus.Complete then 0 else 1)
    decreases Remaining(w, id), 3, 0, 0
  {
    if ProgressOf(w, id).AllComplete(Types(sds)) {
      AdvanceEffect(ex, w, tenant, id, sds);
    } else {
      DispatchExcess(ex, w, tenant, id, sds, s);
    }
  }

  lemma {:induction false} FailedExcess(ex: Executors, w: World, tenant: nat, id: nat, t: StageType,
                                        sds: seq<StageDefinition>, s: StageType)
    requires Active(w, tenant, id, sds) && DistinctTypes(sds) && ProgressOf(w, id).Status(t) == StageStatus.Failed
    ensures var w' := OnFailed(ex, w, tenant, id, t).world;
      Excess(sds, ProgressOf(w', id), s) <= Excess(sds, ProgressOf(w, id), s)
        + (if s == t && RetriesLeft(w, id, t) > 0 then 1 else 0)
    decreases Remaining(w, id), 0, if RetriesLeft(w, id, t) > 0 then 2 * RetriesLeft(w, id, t) + 2 else 0, 0
  {
    if RetriesLeft(w, id, t) > 0 {
      ExecuteExcess(ex, w, tenant, id, t, SYSTEM_ACTOR, sds, s);
    }
  }

  /** A dispatch raises a stage's attempts, not counted below its budget less one, by at most one for each
      other stage that completes, and one more. */
  lemma DispatchRaises(ex: Executors, w: World, tenant: nat, id: nat, sds: seq<StageDefinition>, sd: StageDefinition)
    requires Active(w, tenant, id, sds) && DistinctTypes(sds) && sd in sds
    ensures var s := sd.stageType;
      var p, p' := ProgressOf(w, id), ProgressOf(Dispatch(ex, w, tenant, id).world, id);
      Max(p'.Get(s).attempts, sd.maxAttempts - 1)
        <= Max(p.Get(s).attempts, sd.maxAttempts - 1) + |p'.Completed() - {s}| - |p.Completed() - {s}|
           + (if p.Status(s) == StageStatus.Complete then 0 else 1)
  {
    OwnDefinition(sds, sd);
    DispatchExcess(ex, w, tenant, id, sds, sd.stageType);
  }

  lemma {:induction false} DispatchExcess(ex: Executors, w: World, tenant: nat, id: nat, sds: seq<StageDefinition>, s: StageType)
    requires Active(w, tenant, id, sds) && DistinctTypes(sds)
    ensures var w' := Dispatch(ex, w, tenant, id).world;
      Excess(sds, ProgressOf(w', id), s) <= Excess(sds, ProgressOf(w, id), s)
        + (if ProgressOf(w, id).Status(s) == StageStatus.Complete then 0 else 1)
    decreases Remaining(w, id), 2, 0, 0
  {
    var runnable := RunnableStages(sds, ProgressOf(w, id));
    var list := AutomaticOf(runnable);
    RunnableDistinct(sds, ProgressOf(w, id));
    AutomaticDistinct(runnable);
    forall sd <- list ensures sd.stageType in Types(sds) && Startable(ProgressOf(w, id).Status(sd.stageType)) {
      assert sd in runnable;
    }
    assert Types(list) <= Types(sds);
    EachExcess(ex, w, tenant, id, list, sds, s);
  }

  lemma {:induction false} RunExcess(ex: Executors, w: World, tenant: nat, id: nat, t: StageType,
                                     sds: seq<StageDefinition>, s: StageType)
    requires Active(w, tenant, id, sds) && Attemptable(w, tenant, id, t) && DistinctTypes(sds)
    ensures var r := Execute(ex, w, tenant, id, t, SYSTEM_ACTOR);
      && r.error == None && Live(r.world, tenant, id, sds)
      && Remaining(r.world, id) <= Remaining(w, id)
      && Excess(sds, ProgressOf(r.world, id), s) <= Excess(sds, ProgressOf(w, id), s) + (if s == t then 1 else 0)
    decreases Remaining(w, id), 0, 2 * RetriesLeft(w, id, t) + 1, 1
  {
    ExecuteLive(ex, w, tenant, id, t, SYSTEM_ACTOR, sds);
    ExecuteExcess(ex, w, tenant, id, t, SYSTEM_ACTOR, sds, s);
    FewerRemain(w, Execute(ex, w, tenant, id, t, SYSTEM_ACTOR).world, id);
  }

  lemma TailTypes(rest: seq<StageDefinition>)
    requires rest != [] && DistinctTypes(rest)
    ensures DistinctTypes(rest[1..]) && rest[0].stageType !in Types(rest[1..])
    ensures Types(rest) == {rest[0].stageType} + Types(rest[1..])
  {}

  lemma {:induction false} EachExcess(ex: Executors, w: World, tenant: nat, id: nat, rest: seq<StageDefinition>,
                                      sds: seq<StageDefinition>, s: StageType)
    requires Live(w, tenant, id, sds) && DistinctTypes(sds) && DistinctTypes(rest)
    requires Types(rest) <= Types(sds)
    ensures var w' := DispatchEach(ex, w, tenant, id, rest).world;
      Excess(sds, ProgressOf(w', id), s) <= Excess(sds, ProgressOf(w, id), s) + (if s in Types(rest) then 1 else 0)
    decreases Remaining(w, id), 1, |rest|, 0
  {
    if rest != [] {
      var t := rest[0].stageType;
      TailTypes(rest);
      if !Startable(ProgressOf(w, id).Status(t)) {
        EachExcess(ex, w, tenant, id, rest[1..], sds, s);
      } else {
        RunExcess(ex, w, tenant, id, t, sds, s);
        EachExcess(ex, Execute(ex, w, tenant, id, t, SYSTEM_ACTOR).world, tenant, id, rest[1..], sds, s);
      }
    }
  }

  lemma {:induction false} DistinctCount(sds: seq<StageDefinition>)
    requires DistinctTypes(sds)
    ensures |Types(sds)| == |sds|
  {
    if sds != [] {
      DistinctCount(sds[1..]);
      assert Types(sds) == {sds[0].stageType} + Types(sds[1..]);
    }
  }
}
