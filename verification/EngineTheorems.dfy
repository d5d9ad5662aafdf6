/** What the engine guarantees about progress, for every template and every executor. */
module EngineTheorems {
  import opened Results
  import opened Stages
  import opened Templates
  import opened Assessments
  import opened Platform
  import opened Engine
  import opened EngineRuns

  // ---- How progress evolves along a run ----

  /** Closed under the dispatch rule: an automatic stage whose predecessors are in the set is in it. */
  predicate ClosedSet(sds: seq<StageDefinition>, stages: set<StageType>) {
    forall sd <- sds :: sd.trigger == Automatic && sd.predecessors <= stages ==> sd.stageType in stages
  }

  ghost predicate InEveryClosedSet(sds: seq<StageDefinition>, s: StageType) {
    forall stages: set<StageType> {:trigger ClosedSet(sds, stages)} :: ClosedSet(sds, stages) ==> s in stages
  }

  /** The least closed set. */
  ghost function AutomaticClosure(sds: seq<StageDefinition>): set<StageType> {
    set s: StageType | InEveryClosedSet(sds, s)
  }

  lemma ClosureIsLeast(sds: seq<StageDefinition>)
    ensures ClosedSet(sds, AutomaticClosure(sds))
    ensures forall stages :: ClosedSet(sds, stages) ==> AutomaticClosure(sds) <= stages
  {
    forall sd <- sds | sd.trigger == Automatic && sd.predecessors <= AutomaticClosure(sds)
      ensures sd.stageType in AutomaticClosure(sds)
    {
      forall stages: set<StageType> | ClosedSet(sds, stages) ensures sd.stageType in stages {
        forall p <- sd.predecessors ensures p in stages { assert InEveryClosedSet(sds, p); }
      }
    }
  }

  /** Running and complete stages are left alone; a changed stage was permitted, was attempted
      again, and has an outcome. */
  predicate StageEvolves(sds: seq<StageDefinition>, manual: set<StageType>,
                         p: WorkflowProgress, p': WorkflowProgress, s: StageType)
  {
    var e, e' := p.Get(s), p'.Get(s);
    || e' == e
    || (&& Startable(e.status) && e'.attempts > e.attempts
        && (e'.status == StageStatus.Complete || e'.status == StageStatus.Failed)
        && Permitted(sds, manual, p', s))
  }

  predicate Evolves(sds: seq<StageDefinition>, manual: set<StageType>, p: WorkflowProgress, p': WorkflowProgress) {
    && p.Completed() <= p'.Completed()
    && (forall s :: StageEvolves(sds, manual, p, p', s))
  }

  /** Nothing outside what the rule derives from the manual triggers becomes COMPLETE. */
  ghost predicate Derivable(sds: seq<StageDefinition>, manual: set<StageType>, p: WorkflowProgress, p': WorkflowProgress) {
    forall stages: set<StageType> :: ClosedSet(sds, stages) && p.Completed() + manual <= stages ==> p'.Completed() <= stages
  }

  /** All but one assessment, and all but status and progress of that one, are untouched. */
  predicate OnlyProgress(w: World, w': World, id: nat) {
    && id < |w.assessments| == |w'.assessments|
    && w'.templates == w.templates
    && w'.assessments == w.assessments[id := w'.assessments[id]]
    && w'.assessments[id].state == w.assessments[id].state.(
         status := w'.assessments[id].state.status, progress := w'.assessments[id].state.progress)
  }

  lemma StepEvolves(ex: Executors, w: World, w': World, tenant: nat, id: nat, sds: seq<StageDefinition>, manual: set<StageType>)
    requires EngineStep(ex, w, w', tenant, id, sds, manual)
    ensures Evolves(sds, manual, ProgressOf(w, id), ProgressOf(w', id))
    ensures Derivable(sds, manual, ProgressOf(w, id), ProgressOf(w', id))
    ensures OnlyProgress(w, w', id)
  {
    var p, p' := ProgressOf(w, id), ProgressOf(w', id);
    if LegalAdvance(w, w', tenant, id, sds) {
      assert p' == p;
    } else {
      var s, actor :| LegalAttempt(ex, w, w', tenant, id, sds, manual, s, actor);
      AttemptEffect(ex, w, tenant, id, s, actor);
      if s !in manual {
        EligibleGrows(sds, p, p', s);
        var sd :| sd in sds && sd.stageType == s && sd.trigger == Automatic && p.AllComplete(sd.predecessors);
        assert sd.predecessors <= p.Completed();
      }
      assert p'.Completed() <= p.Completed() + {s};
    }
  }

  lemma EvolvesJoins(sds: seq<StageDefinition>, manual: set<StageType>,
                     p: WorkflowProgress, q: WorkflowProgress, r: WorkflowProgress)
    requires Evolves(sds, manual, p, q) && Evolves(sds, manual, q, r)
    ensures Evolves(sds, manual, p, r)
  {
    forall s ensures StageEvolves(sds, manual, p, r, s) {
      assert StageEvolves(sds, manual, p, q, s) && StageEvolves(sds, manual, q, r, s);
      if Eligible(sds, q, s) { EligibleGrows(sds, q, r, s); }
    }
  }

  lemma {:induction false} PathEvolves(ex: Executors, tenant: nat, id: nat, sds: seq<StageDefinition>,
                                       manual: set<StageType>, ws: seq<World>)
    requires Path(ex, tenant, id, sds, manual, ws) && id < |ws[0].assessments|
    ensures var p, p' := ProgressOf(ws[0], id), ProgressOf(ws[|ws| - 1], id);
      Evolves(sds, manual, p, p') && Derivable(sds, manual, p, p')
    ensures OnlyProgress(ws[0], ws[|ws| - 1], id)
  {
    if |ws| > 1 {
      var n := |ws| - 1;
      LastStep(ex, tenant, id, sds, manual, ws);
      PathEvolves(ex, tenant, id, sds, manual, ws[..n]);
      StepEvolves(ex, ws[n - 1], ws[n], tenant, id, sds, manual);
      EvolvesJoins(sds, manual, ProgressOf(ws[0], id), ProgressOf(ws[n - 1], id), ProgressOf(ws[n], id));
    }
  }

  // ---- What any call leaves behind, whoever asked for it ----

  predicate Moves(e: StageEntry, e': StageEntry) {
    || e' == e
    || (Startable(e.status) && e'.attempts > e.attempts
        && (e'.status == StageStatus.Complete || e'.status == StageStatus.Failed))
  }

  /** Each stage is as before, or was startable, was attempted, and has an outcome. */
  predicate Grows(p: WorkflowProgress, p': WorkflowProgress) {
    p.Completed() <= p'.Completed() && forall s :: Moves(p.Get(s), p'.Get(s))
  }

  lemma EvolvesGrows(sds: seq<StageDefinition>, manual: set<StageType>, p: WorkflowProgress, p': WorkflowProgress)
    requires Evolves(sds, manual, p, p')
    ensures Grows(p, p')
  {
    forall s ensures Moves(p.Get(s), p'.Get(s)) { assert StageEvolves(sds, manual, p, p', s); }
  }

  lemma PathGrows(ex: Executors, tenant: nat, id: nat, sds: seq<StageDefinition>, manual: set<StageType>, ws: seq<World>)
    requires Path(ex, tenant, id, sds, manual, ws) && id < |ws[0].assessments|
    ensures Grows(ProgressOf(ws[0], id), ProgressOf(ws[|ws| - 1], id))
  {
    PathEvolves(ex, tenant, id, sds, manual, ws);
    EvolvesGrows(sds, manual, ProgressOf(ws[0], id), ProgressOf(ws[|ws| - 1], id));
  }

  lemma ExecuteGrows(ex: Executors, w: World, tenant: nat, id: nat, s: StageType, actor: string, sds: seq<StageDefinition>)
    requires Active(w, tenant, id, sds) && Attemptable(w, tenant, id, s)
    ensures var r := Execute(ex, w, tenant, id, s, actor);
      r.error == None && Live(r.world, tenant, id, sds) && Grows(ProgressOf(w, id), ProgressOf(r.world, id))
  {
    var ws := ExecutePath(ex, w, tenant, id, s, actor, sds, {s});
    PathGrows(ex, tenant, id, sds, {s}, ws);
  }

  lemma CompletedGrows(ex: Executors, w: World, tenant: nat, id: nat, sds: seq<StageDefinition>)
    requires Active(w, tenant, id, sds)
    ensures var r := OnCompleted(ex, w, tenant, id);
      r.error == None && Live(r.world, tenant, id, sds) && Grows(ProgressOf(w, id), ProgressOf(r.world, id))
  {
    var ws := CompletedPath(ex, w, tenant, id, sds, {});
    PathGrows(ex, tenant, id, sds, {}, ws);
  }

  /** An execution, seen from right after its first attempt. */
  lemma AttemptedGrows(ex: Executors, w: World, tenant: nat, id: nat, s: StageType, actor: string, sds: seq<StageDefinition>)
    requires Active(w, tenant, id, sds) && Attemptable(w, tenant, id, s)
    ensures Grows(ProgressOf(Attempt(ex, w, tenant, id, s, actor).0.world, id),
                  ProgressOf(Execute(ex, w, tenant, id, s, actor).world, id))
  {
    AttemptProgresses(ex, w, tenant, id, sds, s, actor);
    var (r, success) := Attempt(ex, w, tenant, id, s, actor);
    if success {
      CompletedGrows(ex, r.world, tenant, id, sds);
    } else {
      var ws := FailedPath(ex, r.world, tenant, id, s, sds, {s});
      PathGrows(ex, tenant, id, sds, {s}, ws);
    }
  }

  lemma EachGrows(ex: Executors, w: World, tenant: nat, id: nat, rest: seq<StageDefinition>, sds: seq<StageDefinition>)
    requires Live(w, tenant, id, sds) && Types(rest) <= Types(sds)
    ensures var r := DispatchEach(ex, w, tenant, id, rest);
      r.error == None && Live(r.world, tenant, id, sds) && Grows(ProgressOf(w, id), ProgressOf(r.world, id))
  {
    var all := AllStages();
    forall sd <- rest ensures Listed(sds, all, ProgressOf(w, id), sd) { assert sd.stageType in Types(rest); }
    var ws := EachPath(ex, w, tenant, id, rest, sds, all);
    PathGrows(ex, tenant, id, sds, all, ws);
  }

  lemma DispatchGrows(ex: Executors, w: World, tenant: nat, id: nat, sds: seq<StageDefinition>)
    requires Active(w, tenant, id, sds)
    ensures var r := Dispatch(ex, w, tenant, id);
      r.error == None && Live(r.world, tenant, id, sds) && Grows(ProgressOf(w, id), ProgressOf(r.world, id))
  {
    var ws := DispatchPath(ex, w, tenant, id, sds, {});
    PathGrows(ex, tenant, id, sds, {}, ws);
  }

  // ---- Quiescence: nothing automatic is left waiting ----

  /** The stage was attempted as often as its own definition allows. */
  predicate Spent(sds: seq<StageDefinition>, e: StageEntry) {
    forall i :: 0 <= i < |sds| && FirstOfType(sds, i) && sds[i].stageType == e.stageType ==> e.attempts >= sds[i].maxAttempts
  }

  lemma SpentIs(sds: seq<StageDefinition>, e: StageEntry)
    ensures Spent(sds, e) <==> e.attempts >= MaxAttempts(Some(sds), e.stageType)
  {
    forall i | 0 <= i < |sds| && FirstOfType(sds, i) && sds[i].stageType == e.stageType
      ensures MaxAttempts(Some(sds), e.stageType) == sds[i].maxAttempts
    {
      FirstDefined(sds, i);
    }
    if e.stageType in Types(sds) { var i := FirstExists(sds, e.stageType); }
  }

  predicate Finished(sds: seq<StageDefinition>, e: StageEntry) {
    || e.status == StageStatus.Complete
    || e.status == StageStatus.Running
    || (e.status == StageStatus.Failed && Spent(sds, e))
  }

  predicate SettledExcept(sds: seq<StageDefinition>, p: WorkflowProgress, open: set<StageType>) {
    forall s :: Eligible(sds, p, s) && s !in open ==> Finished(sds, p.Get(s))
  }

  /** A workflow whose stages are all complete is no longer running. */
  predicate Decided(w: World, id: nat, sds: seq<StageDefinition>) {
    id < |w.assessments| && (w.assessments[id].state.status == Lifecycle.Running ==> !ProgressOf(w, id).AllComplete(Types(sds)))
  }

  /** Only stage `s` changed, and it failed with its budget spent. */
  predicate OnlyExhausted(sds: seq<StageDefinition>, p: WorkflowProgress, p': WorkflowProgress, s: StageType) {
    && p'.Get(s).status == StageStatus.Failed && Finished(sds, p'.Get(s))
    && (forall t :: t != s ==> p'.Get(t) == p.Get(t))
    && p.Status(s) != StageStatus.Complete
  }

  lemma ExecuteLive(ex: Executors, w: World, tenant: nat, id: nat, s: StageType, actor: string, sds: seq<StageDefinition>)
    requires Active(w, tenant, id, sds) && Attemptable(w, tenant, id, s)
    ensures var r := Execute(ex, w, tenant, id, s, actor);
      r.error == None && Live(r.world, tenant, id, sds)
      && Evolves(sds, {s}, ProgressOf(w, id), ProgressOf(r.world, id))
  {
    var ws := ExecutePath(ex, w, tenant, id, s, actor, sds, {s});
    PathEvolves(ex, tenant, id, sds, {s}, ws);
  }

  lemma {:induction false} ExecuteSettles(ex: Executors, w: World, tenant: nat, id: nat, s: StageType, actor: string,
                                          sds: seq<StageDefinition>)
    requires Active(w, tenant, id, sds) && Attemptable(w, tenant, id, s) && Decided(w, id, sds)
    ensures var w' := Execute(ex, w, tenant, id, s, actor).world;
      && Decided(w', id, sds)
      && (SettledExcept(sds, ProgressOf(w', id), {}) || OnlyExhausted(sds, ProgressOf(w, id), ProgressOf(w', id), s))
    decreases Remaining(w, id), 0, 2 * RetriesLeft(w, id, s) + 1, 0
  {
    AttemptEffect(ex, w, tenant, id, s, actor);
    AttemptProgresses(ex, w, tenant, id, sds, s, actor);
    var (r, success) := Attempt(ex, w, tenant, id, s, actor);
    if success {
      CompletedSettles(ex, r.world, tenant, id, sds);
    } else {
      var t :| t in Types(sds) && ProgressOf(w, id).Status(t) != StageStatus.Complete;
      assert ProgressOf(r.world, id).Status(t) != StageStatus.Complete;
      FailedSettles(ex, r.world, tenant, id, s, sds);
    }
  }

  lemma {:induction false} CompletedSettles(ex: Executors, w: World, tenant: nat, id: nat, sds: seq<StageDefinition>)
    requires Active(w, tenant, id, sds)
    ensures var w' := OnCompleted(ex, w, tenant, id).world;
      Decided(w', id, sds) && SettledExcept(sds, ProgressOf(w', id), {})
    decreases Remaining(w, id), 3, 0, 0
  {
    if ProgressOf(w, id).AllComplete(Types(sds)) {
      AdvanceEffect(ex, w, tenant, id, sds);
      assert forall s :: Eligible(sds, ProgressOf(w, id), s) ==> s in Types(sds);
    } else {
      DispatchSettles(ex, w, tenant, id, sds);
    }
  }

  lemma {:induction false} FailedSettles(ex: Executors, w: World, tenant: nat, id: nat, s: StageType, sds: seq<StageDefinition>)
    requires Active(w, tenant, id, sds) && Decided(w, id, sds)
    requires ProgressOf(w, id).Status(s) == StageStatus.Failed
    ensures var w' := OnFailed(ex, w, tenant, id, s).world;
      && Decided(w', id, sds)
      && (SettledExcept(sds, ProgressOf(w', id), {}) || OnlyExhausted(sds, ProgressOf(w, id), ProgressOf(w', id), s))
    decreases Remaining(w, id), 0, if RetriesLeft(w, id, s) > 0 then 2 * RetriesLeft(w, id, s) + 2 else 0, 0
  {
    if RetriesLeft(w, id, s) > 0 {
      ExecuteSettles(ex, w, tenant, id, s, SYSTEM_ACTOR, sds);
    } else {
      SpentIs(sds, ProgressOf(w, id).Get(s));
    }
  }

  lemma {:induction false} DispatchSettles(ex: Executors, w: World, tenant: nat, id: nat, sds: seq<StageDefinition>)
    requires Active(w, tenant, id, sds) && Decided(w, id, sds)
    ensures var w' := Dispatch(ex, w, tenant, id).world;
      Decided(w', id, sds) && SettledExcept(sds, ProgressOf(w', id), {})
    decreases Remaining(w, id), 2, 0, 0
  {
    var p := ProgressOf(w, id);
    var list := AutomaticOf(RunnableStages(sds, p));
    forall s | Eligible(sds, p, s) && s !in Types(list) ensures Finished(sds, p.Get(s)) {
      var sd :| sd in sds && sd.stageType == s && sd.trigger == Automatic && p.AllComplete(sd.predecessors);
      assert Startable(p.Status(s)) ==> sd in list;
    }
    forall s <- Types(list) ensures s in Types(sds) {
      var sd :| sd in list && sd.stageType == s;
      assert sd in RunnableStages(sds, p);
    }
    EachSettles(ex, w, tenant, id, list, sds);
  }

  lemma {:induction false} EachSettles(ex: Executors, w: World, tenant: nat, id: nat, rest: seq<StageDefinition>,
                                       sds: seq<StageDefinition>)
    requires Live(w, tenant, id, sds) && Decided(w, id, sds)
    requires Types(rest) <= Types(sds)
    requires SettledExcept(sds, ProgressOf(w, id), Types(rest))
    ensures var w' := DispatchEach(ex, w, tenant, id, rest).world;
      Decided(w', id, sds) && SettledExcept(sds, ProgressOf(w', id), {})
    decreases Remaining(w, id), 1, |rest|, 0
  {
    if rest == [] {
      assert Types(rest) == {};
    } else {
      var s := rest[0].stageType;
      assert s in Types(rest);
      assert Types(rest) == {s} + Types(rest[1..]);
      if !Startable(ProgressOf(w, id).Status(s)) {
        EachSettles(ex, w, tenant, id, rest[1..], sds);
      } else {
        ExecuteLive(ex, w, tenant, id, s, SYSTEM_ACTOR, sds);
        ExecuteSettles(ex, w, tenant, id, s, SYSTEM_ACTOR, sds);
        var w' := Execute(ex, w, tenant, id, s, SYSTEM_ACTOR).world;
        FewerRemain(w, w', id);
        StillSettled(sds, ProgressOf(w, id), ProgressOf(w', id), s, Types(rest[1..]));
        EachSettles(ex, w', tenant, id, rest[1..], sds);
      }
    }
  }

  lemma StillSettled(sds: seq<StageDefinition>, p: WorkflowProgress, p': WorkflowProgress, s: StageType, open: set<StageType>)
    requires SettledExcept(sds, p, {s} + open)
    requires SettledExcept(sds, p', {}) || OnlyExhausted(sds, p, p', s)
    ensures SettledExcept(sds, p', open)
  {
    if OnlyExhausted(sds, p, p', s) {
      forall t | Eligible(sds, p', t) && t !in open ensures Finished(sds, p'.Get(t)) {
        if t != s {
          var sd :| sd in sds && sd.stageType == t && sd.trigger == Automatic && p'.AllComplete(sd.predecessors);
          assert p.AllComplete(sd.predecessors);
          assert Eligible(sds, p, t);
        }
      }
    }
  }
}
