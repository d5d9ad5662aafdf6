/** When the budget does not bound the attempts: an executor that exceeds it for every stage that another
    stage can follow in completing. */
module BudgetExceeded {
  import opened Results
  import opened Stages
  import opened Templates
  import opened Platform
  import opened Engine
  import opened EngineRuns
  import opened EngineTheorems
  import opened AttemptBounds
  import opened WorkflowGuarantees
  import opened RetryBudgets

  /** A stage `s` that needs stages in `before` only, and another stage `u` that is not among them. */
  ghost predicate Rivals(sds: seq<StageDefinition>, s: StageType, u: StageType, before: set<StageType>) {
    && DistinctTypes(sds) && (forall sd <- sds :: sd.Valid())
    && s !in before && u !in before && s != u && Hangs(sds, before, s)
  }

  /** The transitive predecessors of `s`, all within reach of the dispatch rule. */
  ghost predicate Roots(sds: seq<StageDefinition>, s: StageType, before: set<StageType>) {
    AncestralSet(sds, s, before) && Derived(sds, before)
  }

  ghost predicate Derived(sds: seq<StageDefinition>, stages: set<StageType>) {
    forall closed: set<StageType> {:trigger ClosedSet(sds, closed)} :: ClosedSet(sds, closed) ==> stages <= closed
  }

  /** An automatic stage that needs nothing else. */
  predicate Hangs(sds: seq<StageDefinition>, before: set<StageType>, t: StageType) {
    exists sd <- sds :: sd.stageType == t && sd.trigger == Automatic && sd.predecessors <= before
  }

  // ---- Finding the rival ----

  /** The least closed set holds nothing that the rule does not put into it. */
  lemma ClosureIsGrounded(sds: seq<StageDefinition>, t: StageType)
    requires t in AutomaticClosure(sds)
    ensures Hangs(sds, AutomaticClosure(sds), t)
  {
    var closure := AutomaticClosure(sds);
    ClosureIsLeast(sds);
    if !Hangs(sds, closure, t) {
      assert ClosedSet(sds, closure - {t});
    }
  }

  lemma AncestorsReachable(sds: seq<StageDefinition>, s: StageType)
    requires DistinctTypes(sds) && s in AutomaticClosure(sds)
    ensures Ancestors(sds, s) <= ReachableWithout(sds, s)
    ensures s !in ReachableWithout(sds, s) && Hangs(sds, ReachableWithout(sds, s), s)
  {
    var others, without := OthersOf(sds, s), ReachableWithout(sds, s);
    ClosureIsLeast(sds);
    ClosureIsLeast(others);
    assert ClosedSet(others, Types(others));
    if !Hangs(sds, without, s) {
      forall sd <- sds | sd.trigger == Automatic && sd.predecessors <= without ensures sd.stageType in without {
        assert sd in others;
      }
      assert ClosedSet(sds, without);
      assert false;
    }
    forall sd <- sds | sd.stageType == s || sd.stageType in without ensures sd.predecessors <= without {
      if sd.stageType != s { ClosureIsGrounded(others, sd.stageType); }
      var e :| e in sds && e.stageType == sd.stageType && e.predecessors <= without;
      SameDefinition(sds, sd, e);
    }
    AncestorsAreLeast(sds, s);
    assert AncestralSet(sds, s, without);
  }

  lemma OthersReachLess(sds: seq<StageDefinition>, s: StageType)
    ensures ReachableWithout(sds, s) <= AutomaticClosure(sds)
  {
    ClosureIsLeast(sds);
    ClosureIsLeast(OthersOf(sds, s));
    assert ClosedSet(OthersOf(sds, s), AutomaticClosure(sds));
  }

  /** A stage that can follow: it needs only stages before `s` and is not one of them. */
  lemma FollowerExists(sds: seq<StageDefinition>, s: StageType, before: set<StageType>) returns (u: StageType)
    requires !Confined(sds, s) && before == Ancestors(sds, s)
    ensures u != s && u !in before && Hangs(sds, before, u)
  {
    ClosureIsLeast(OthersOf(sds, s));
    assert !ClosedSet(OthersOf(sds, s), before);
    var sd :| sd in OthersOf(sds, s) && sd.trigger == Automatic && sd.predecessors <= before && sd.stageType !in before;
    u := sd.stageType;
  }

  lemma OwnHangs(sds: seq<StageDefinition>, s: StageType)
    requires Hangs(sds, ReachableWithout(sds, s), s)
    ensures Hangs(sds, Ancestors(sds, s), s)
  {
    var own :| own in sds && own.stageType == s && own.trigger == Automatic && own.predecessors <= ReachableWithout(sds, s);
    AncestorsAreLeast(sds, s);
    assert own.predecessors <= Ancestors(sds, s);
  }

  lemma AncestorsFacts(sds: seq<StageDefinition>, s: StageType, before: set<StageType>)
    requires DistinctTypes(sds) && s in AutomaticClosure(sds) && before == Ancestors(sds, s)
    ensures AncestralSet(sds, s, before) && Derived(sds, before)
    ensures s !in before && Hangs(sds, before, s)
  {
    AncestorsReachable(sds, s);
    OthersReachLess(sds, s);
    OwnHangs(sds, s);
    Between(Ancestors(sds, s), ReachableWithout(sds, s), AutomaticClosure(sds), s);
    AncestorsAreLeast(sds, s);
    ClosureIsLeast(sds);
  }

  lemma FindRival(sds: seq<StageDefinition>, s: StageType) returns (u: StageType, before: set<StageType>)
    requires DistinctTypes(sds) && (forall sd <- sds :: sd.Valid())
    requires s in AutomaticClosure(sds) && !Confined(sds, s)
    ensures Rivals(sds, s, u, before) && Roots(sds, s, before) && Hangs(sds, before, u)
  {
    before := Ancestors(sds, s);
    AncestorsFacts(sds, s, before);
    u := FollowerExists(sds, s, before);
  }

  lemma Between(a: set<StageType>, b: set<StageType>, c: set<StageType>, s: StageType)
    requires a <= b <= c && s !in b
    ensures a <= c && s !in a
  {}

  // ---- The executor ----

  /** Everything before `s` succeeds; `u` succeeds once that is COMPLETE; all else fails. */
  predicate Verdict(p: WorkflowProgress, u: StageType, before: set<StageType>, t: StageType) {
    t in before || (t == u && before <= p.Completed())
  }

  ghost predicate Decides(ex: Executors, u: StageType, before: set<StageType>) {
    forall w: World, id: nat, t :: RunExecutor(ex, w, id, t).1.success <==> Verdict(ProgressOf(w, id), u, before, t)
  }

  lemma Adversary(u: StageType, before: set<StageType>) returns (ex: Executors)
    ensures Decides(ex, u, before)
  {
    ex := Executors({}, (w: World, id: nat, t: StageType) => Outcome(Verdict(ProgressOf(w, id), u, before, t), None, None), _ => None,
                    (_, _) => None, (_, _) => [], (_, _) => false, (_, _, _) => None, (_, _, _, _) => None, _ => "");
  }

  lemma AttemptDecided(ex: Executors, w: World, tenant: nat, id: nat, t: StageType, actor: string, u: StageType,
                       before: set<StageType>)
    requires Decides(ex, u, before) && Attemptable(w, tenant, id, t) && t !in before
    ensures Attempt(ex, w, tenant, id, t, actor).1 <==> Verdict(ProgressOf(w, id), u, before, t)
  {
    StartEffect(w, tenant, id, t, actor);
    var started, _, _ := AttemptParts(ex, w, tenant, id, t, actor);
    assert ProgressOf(started, id).Completed() == ProgressOf(w, id).Completed();
  }

  lemma AttemptBefore(ex: Executors, w: World, tenant: nat, id: nat, t: StageType, actor: string, u: StageType,
                      before: set<StageType>)
    requires Decides(ex, u, before) && Attemptable(w, tenant, id, t) && t in before
    ensures Attempt(ex, w, tenant, id, t, actor).1
  {
    var started, _, _ := AttemptParts(ex, w, tenant, id, t, actor);
    assert Verdict(ProgressOf(started, id), u, before, t);
  }

  // ---- What holds all along its runs ----

  /** Nothing runs; only `before` and then `u` complete, and nothing in `before` fails. */
  predicate Staged(p: WorkflowProgress, u: StageType, before: set<StageType>) {
    && (forall t :: p.Status(t) != StageStatus.Running)
    && (forall t <- before :: p.Status(t) != StageStatus.Failed)
    && (forall t :: p.Status(t) == StageStatus.Complete ==> t in before || t == u)
    && (p.Status(u) == StageStatus.Complete ==> before <= p.Completed())
  }

  lemma StepKeepsStaged(ex: Executors, w: World, w': World, tenant: nat, id: nat, sds: seq<StageDefinition>,
                        manual: set<StageType>, u: StageType, before: set<StageType>)
    requires EngineStep(ex, w, w', tenant, id, sds, manual) && Decides(ex, u, before) && u !in before
    requires Staged(ProgressOf(w, id), u, before)
    ensures Staged(ProgressOf(w', id), u, before)
  {
    if !LegalAdvance(w, w', tenant, id, sds) {
      var t, actor :| LegalAttempt(ex, w, w', tenant, id, sds, manual, t, actor);
      AttemptEffect(ex, w, tenant, id, t, actor);
      if t in before { AttemptBefore(ex, w, tenant, id, t, actor, u, before); }
      else { AttemptDecided(ex, w, tenant, id, t, actor, u, before); }
      OutcomeStaged(ProgressOf(w, id), ProgressOf(w', id), u, before, t);
    }
  }

  lemma OutcomeStaged(p: WorkflowProgress, p': WorkflowProgress, u: StageType, before: set<StageType>, t: StageType)
    requires Staged(p, u, before) && u !in before && Startable(p.Status(t))
    requires forall x :: x != t ==> p'.Get(x) == p.Get(x)
    requires p'.Status(t) == if Verdict(p, u, before, t) then StageStatus.Complete else StageStatus.Failed
    ensures Staged(p', u, before)
  {
    assert forall x :: x != t ==> p'.Status(x) == p.Status(x);
    forall x <- p.Completed() ensures x in p'.Completed() { assert x != t; }
  }

  lemma {:induction false} PathKeepsStaged(ex: Executors, tenant: nat, id: nat, sds: seq<StageDefinition>, manual: set<StageType>,
                                           ws: seq<World>, u: StageType, before: set<StageType>)
    requires Path(ex, tenant, id, sds, manual, ws) && Decides(ex, u, before) && u !in before
    requires Staged(ProgressOf(ws[0], id), u, before)
    ensures Staged(ProgressOf(ws[|ws| - 1], id), u, before)
  {
    if |ws| > 1 {
      var n := |ws| - 1;
      LastStep(ex, tenant, id, sds, manual, ws);
      PathKeepsStaged(ex, tenant, id, sds, manual, ws[..n], u, before);
      StepKeepsStaged(ex, ws[n - 1], ws[n], tenant, id, sds, manual, u, before);
    }
  }

  /** The setting of all that follows. */
  ghost predicate Mid(ex: Executors, w: World, tenant: nat, id: nat, sds: seq<StageDefinition>,
                      s: StageType, u: StageType, before: set<StageType>)
  {
    Rivals(sds, s, u, before) && Decides(ex, u, before) && Active(w, tenant, id, sds) && Staged(ProgressOf(w, id), u, before)
  }

  lemma RivalsListed(sds: seq<StageDefinition>, s: StageType, u: StageType, before: set<StageType>)
    requires Rivals(sds, s, u, before)
    ensures s in Types(sds)
  {
    var a :| a in sds && a.stageType == s && a.trigger == Automatic && a.predecessors <= before;
  }

  /** A live workflow in which `s` is not COMPLETE is running. */
  lemma StillMid(ex: Executors, w: World, tenant: nat, id: nat, sds: seq<StageDefinition>, s: StageType,
                 u: StageType, before: set<StageType>)
    requires Rivals(sds, s, u, before) && Decides(ex, u, before) && Live(w, tenant, id, sds) && Staged(ProgressOf(w, id), u, before)
    ensures Mid(ex, w, tenant, id, sds, s, u, before)
  {
    RivalsListed(sds, s, u, before);
    assert ProgressOf(w, id).Status(s) != StageStatus.Complete;
  }

  lemma ExecuteMid(ex: Executors, w: World, tenant: nat, id: nat, t: StageType, sds: seq<StageDefinition>,
                   s: StageType, u: StageType, before: set<StageType>, actor: string)
    requires Mid(ex, w, tenant, id, sds, s, u, before) && Startable(ProgressOf(w, id).Status(t))
    ensures var r := Execute(ex, w, tenant, id, t, actor);
      r.error == None && Mid(ex, r.world, tenant, id, sds, s, u, before) && Grows(ProgressOf(w, id), ProgressOf(r.world, id))
  {
    var ws := ExecutePath(ex, w, tenant, id, t, actor, sds, {t});
    PathKeepsStaged(ex, tenant, id, sds, {t}, ws, u, before);
    PathGrows(ex, tenant, id, sds, {t}, ws);
    StillMid(ex, Execute(ex, w, tenant, id, t, actor).world, tenant, id, sds, s, u, before);
  }

  lemma AttemptMid(ex: Executors, w: World, tenant: nat, id: nat, t: StageType, sds: seq<StageDefinition>,
                   s: StageType, u: StageType, before: set<StageType>, actor: string)
    requires Mid(ex, w, tenant, id, sds, s, u, before) && Startable(ProgressOf(w, id).Status(t))
    ensures Mid(ex, Attempt(ex, w, tenant, id, t, actor).0.world, tenant, id, sds, s, u, before)
  {
    AttemptProgresses(ex, w, tenant, id, sds, t, actor);
    FirstStep(ex, w, tenant, id, t, actor, sds, {t});
    StepKeepsStaged(ex, w, Attempt(ex, w, tenant, id, t, actor).0.world, tenant, id, sds, {t}, u, before);
  }

  lemma EachMid(ex: Executors, w: World, tenant: nat, id: nat, rest: seq<StageDefinition>, sds: seq<StageDefinition>,
                s: StageType, u: StageType, before: set<StageType>)
    requires Mid(ex, w, tenant, id, sds, s, u, before) && Types(rest) <= Types(sds)
    ensures var r := DispatchEach(ex, w, tenant, id, rest);
      Mid(ex, r.world, tenant, id, sds, s, u, before) && Grows(ProgressOf(w, id), ProgressOf(r.world, id))
  {
    var all := AllStages();
    forall sd <- rest ensures Listed(sds, all, ProgressOf(w, id), sd) { assert sd.stageType in Types(rest); }
    var ws := EachPath(ex, w, tenant, id, rest, sds, all);
    PathKeepsStaged(ex, tenant, id, sds, all, ws, u, before);
    PathGrows(ex, tenant, id, sds, all, ws);
    StillMid(ex, DispatchEach(ex, w, tenant, id, rest).world, tenant, id, sds, s, u, before);
  }

  lemma MidDispatches(ex: Executors, w: World, tenant: nat, id: nat, sds: seq<StageDefinition>, s: StageType,
                      u: StageType, before: set<StageType>)
    requires Mid(ex, w, tenant, id, sds, s, u, before)
    ensures OnCompleted(ex, w, tenant, id) == Dispatch(ex, w, tenant, id)
  {
    RivalsListed(sds, s, u, before);
    assert ProgressOf(w, id).Status(s) != StageStatus.Complete;
  }

  // ---- Counting the attempts of `s` ----

  function AttemptsOf(w: World, id: nat, s: StageType): nat {
    ProgressOf(w, id).Get(s).attempts
  }

  lemma MoreAttempts(p: WorkflowProgress, p': WorkflowProgress, s: StageType)
    requires Grows(p, p')
    ensures p'.Get(s).attempts >= p.Get(s).attempts
  {
    assert Moves(p.Get(s), p'.Get(s));
  }

  /** A stage that neither comes before `s` nor is `u` fails until its budget is spent, and nothing else happens. */
  lemma {:induction false} ExecuteFails(ex: Executors, w: World, tenant: nat, id: nat, t: StageType, sds: seq<StageDefinition>,
                                        s: StageType, u: StageType, before: set<StageType>)
    requires Mid(ex, w, tenant, id, sds, s, u, before) && Startable(ProgressOf(w, id).Status(t)) && t !in before && t != u
    ensures var w' := Execute(ex, w, tenant, id, t, SYSTEM_ACTOR).world;
      && (forall x :: x != t ==> ProgressOf(w', id).Get(x) == ProgressOf(w, id).Get(x))
      && ProgressOf(w', id).Completed() == ProgressOf(w, id).Completed()
      && AttemptsOf(w', id, t) >= Max(AttemptsOf(w, id, t) + 1, MaxAttempts(Some(sds), t))
    decreases RetriesLeft(w, id, t)
  {
    AttemptDecided(ex, w, tenant, id, t, SYSTEM_ACTOR, u, before);
    AttemptEffect(ex, w, tenant, id, t, SYSTEM_ACTOR);
    AttemptProgresses(ex, w, tenant, id, sds, t, SYSTEM_ACTOR);
    AttemptMid(ex, w, tenant, id, t, sds, s, u, before, SYSTEM_ACTOR);
    var w1 := Attempt(ex, w, tenant, id, t, SYSTEM_ACTOR).0.world;
    if RetriesLeft(w1, id, t) > 0 { ExecuteFails(ex, w1, tenant, id, t, sds, s, u, before); }
  }

  /** A loop that still lists `s` attempts it once more, and up to its budget. */
  lemma {:induction false} EachTouches(ex: Executors, w: World, tenant: nat, id: nat, rest: seq<StageDefinition>,
                                       sds: seq<StageDefinition>, s: StageType, u: StageType, before: set<StageType>)
    requires Mid(ex, w, tenant, id, sds, s, u, before) && Types(rest) <= Types(sds) && s in Types(rest)
    ensures AttemptsOf(DispatchEach(ex, w, tenant, id, rest).world, id, s) >= Max(AttemptsOf(w, id, s) + 1, MaxAttempts(Some(sds), s))
    decreases |rest|
  {
    var t := rest[0].stageType;
    HeadTail(rest);
    if !Startable(ProgressOf(w, id).Status(t)) {
      EachTouches(ex, w, tenant, id, rest[1..], sds, s, u, before);
    } else {
      ExecuteMid(ex, w, tenant, id, t, sds, s, u, before, SYSTEM_ACTOR);
      var w' := Execute(ex, w, tenant, id, t, SYSTEM_ACTOR).world;
      if t == s {
        ExecuteFails(ex, w, tenant, id, s, sds, s, u, before);
        EachMid(ex, w', tenant, id, rest[1..], sds, s, u, before);
        MoreAttempts(ProgressOf(w', id), ProgressOf(DispatchEach(ex, w, tenant, id, rest).world, id), s);
      } else {
        MoreAttempts(ProgressOf(w, id), ProgressOf(w', id), s);
        EachTouches(ex, w', tenant, id, rest[1..], sds, s, u, before);
      }
    }
  }

  lemma HeadTail(rest: seq<StageDefinition>)
    requires rest != []
    ensures Types(rest) == {rest[0].stageType} + Types(rest[1..])
  {}

  /** Once everything before them is COMPLETE, both are listed. */
  lemma BothListed(ex: Executors, w: World, tenant: nat, id: nat, sds: seq<StageDefinition>, s: StageType,
                   u: StageType, before: set<StageType>)
    returns (list: seq<StageDefinition>)
    requires Mid(ex, w, tenant, id, sds, s, u, before) && before <= ProgressOf(w, id).Completed()
    ensures Dispatch(ex, w, tenant, id) == DispatchEach(ex, w, tenant, id, list)
    ensures DistinctTypes(list) && Types(list) <= Types(sds) && s in Types(list)
    ensures Hangs(sds, before, u) && ProgressOf(w, id).Status(u) != StageStatus.Complete ==> u in Types(list)
  {
    var p := ProgressOf(w, id);
    var runnable := RunnableStages(sds, p);
    list := AutomaticOf(runnable);
    RunnableDistinct(sds, p);
    AutomaticDistinct(runnable);
    HangingListed(sds, p, before, s);
    if Hangs(sds, before, u) && p.Status(u) != StageStatus.Complete { HangingListed(sds, p, before, u); }
    forall t <- Types(list) ensures t in Types(sds) {
      var sd :| sd in list && sd.stageType == t;
      assert sd in runnable;
    }
  }

  lemma HangingListed(sds: seq<StageDefinition>, p: WorkflowProgress, before: set<StageType>, t: StageType)
    requires Hangs(sds, before, t) && before <= p.Completed() && Startable(p.Status(t))
    ensures t in Types(AutomaticOf(RunnableStages(sds, p)))
  {
    var sd :| sd in sds && sd.stageType == t && sd.trigger == Automatic && sd.predecessors <= before;
    CompleteAll(p, sd.predecessors);
    assert sd in RunnableStages(sds, p);
    assert sd in AutomaticOf(RunnableStages(sds, p));
  }

  /** Running `u` completes it, and dispatches `s` once more. */
  lemma RivalCompletes(ex: Executors, w: World, tenant: nat, id: nat, sds: seq<StageDefinition>, s: StageType,
                       u: StageType, before: set<StageType>, actor: string)
    requires Mid(ex, w, tenant, id, sds, s, u, before) && before <= ProgressOf(w, id).Completed()
    requires Startable(ProgressOf(w, id).Status(u))
    ensures AttemptsOf(Execute(ex, w, tenant, id, u, actor).world, id, s)
         >= Max(AttemptsOf(w, id, s) + 1, MaxAttempts(Some(sds), s))
  {
    var w1 := RivalAttempt(ex, w, tenant, id, sds, s, u, before, actor);
    MidDispatches(ex, w1, tenant, id, sds, s, u, before);
    var list := BothListed(ex, w1, tenant, id, sds, s, u, before);
    EachTouches(ex, w1, tenant, id, list, sds, s, u, before);
  }

  lemma RivalAttempt(ex: Executors, w: World, tenant: nat, id: nat, sds: seq<StageDefinition>, s: StageType,
                     u: StageType, before: set<StageType>, actor: string)
    returns (w1: World)
    requires Mid(ex, w, tenant, id, sds, s, u, before) && before <= ProgressOf(w, id).Completed()
    requires Startable(ProgressOf(w, id).Status(u))
    ensures Execute(ex, w, tenant, id, u, actor) == OnCompleted(ex, w1, tenant, id)
    ensures Mid(ex, w1, tenant, id, sds, s, u, before) && before <= ProgressOf(w1, id).Completed()
    ensures AttemptsOf(w1, id, s) == AttemptsOf(w, id, s)
  {
    AttemptDecided(ex, w, tenant, id, u, actor, u, before);
    AttemptEffect(ex, w, tenant, id, u, actor);
    AttemptMid(ex, w, tenant, id, u, sds, s, u, before, actor);
    AttemptProgresses(ex, w, tenant, id, sds, u, actor);
    w1 := Attempt(ex, w, tenant, id, u, actor).0.world;
  }

  /** Running any other stage changes nothing for `u`. */
  lemma OtherRuns(ex: Executors, w: World, tenant: nat, id: nat, t: StageType, sds: seq<StageDefinition>,
                  s: StageType, u: StageType, before: set<StageType>)
    requires Mid(ex, w, tenant, id, sds, s, u, before) && before <= ProgressOf(w, id).Completed()
    requires Startable(ProgressOf(w, id).Status(t)) && t != u
    ensures var w' := Execute(ex, w, tenant, id, t, SYSTEM_ACTOR).world;
      && ProgressOf(w', id).Completed() == ProgressOf(w, id).Completed()
      && ProgressOf(w', id).Get(u) == ProgressOf(w, id).Get(u)
      && AttemptsOf(w', id, s) >= (if t == s then MaxAttempts(Some(sds), s) else AttemptsOf(w, id, s))
  {
    if t in before { assert false; }
    ExecuteFails(ex, w, tenant, id, t, sds, s, u, before);
  }

  lemma EachMore(ex: Executors, w: World, tenant: nat, id: nat, rest: seq<StageDefinition>, sds: seq<StageDefinition>,
                 s: StageType, u: StageType, before: set<StageType>)
    requires Mid(ex, w, tenant, id, sds, s, u, before) && Types(rest) <= Types(sds)
    ensures AttemptsOf(DispatchEach(ex, w, tenant, id, rest).world, id, s) >= AttemptsOf(w, id, s)
  {
    EachMid(ex, w, tenant, id, rest, sds, s, u, before);
    MoreAttempts(ProgressOf(w, id), ProgressOf(DispatchEach(ex, w, tenant, id, rest).world, id), s);
  }

  /** The loop after its first stage. */
  lemma EachNext(ex: Executors, w: World, tenant: nat, id: nat, rest: seq<StageDefinition>, sds: seq<StageDefinition>,
                 s: StageType, u: StageType, before: set<StageType>) returns (next: World)
    requires Mid(ex, w, tenant, id, sds, s, u, before) && rest != []
    ensures Types(rest) == {rest[0].stageType} + Types(rest[1..])
    ensures Mid(ex, next, tenant, id, sds, s, u, before)
    ensures DispatchEach(ex, w, tenant, id, rest) == DispatchEach(ex, next, tenant, id, rest[1..])
    ensures var t := rest[0].stageType;
      next == if Startable(ProgressOf(w, id).Status(t)) then Execute(ex, w, tenant, id, t, SYSTEM_ACTOR).world else w
  {
    var t := rest[0].stageType;
    HeadTail(rest);
    next := w;
    if Startable(ProgressOf(w, id).Status(t)) {
      ExecuteMid(ex, w, tenant, id, t, sds, s, u, before, SYSTEM_ACTOR);
      next := Execute(ex, w, tenant, id, t, SYSTEM_ACTOR).world;
    }
  }

  lemma StartableUnless(p: WorkflowProgress, u: StageType, before: set<StageType>, t: StageType)
    requires Staged(p, u, before)
    ensures Startable(p.Status(t)) <==> p.Status(t) != StageStatus.Complete
  {}

  /** `s` has spent its budget and `u` is still listed. */
  lemma {:induction false} EachExceedsAfter(ex: Executors, w: World, tenant: nat, id: nat, rest: seq<StageDefinition>,
                                            sds: seq<StageDefinition>, s: StageType, u: StageType, before: set<StageType>)
    requires Mid(ex, w, tenant, id, sds, s, u, before) && before <= ProgressOf(w, id).Completed()
    requires Types(rest) <= Types(sds) && u in Types(rest) && ProgressOf(w, id).Status(u) != StageStatus.Complete
    requires AttemptsOf(w, id, s) >= MaxAttempts(Some(sds), s)
    ensures AttemptsOf(DispatchEach(ex, w, tenant, id, rest).world, id, s) > MaxAttempts(Some(sds), s)
    decreases |rest|
  {
    var t := rest[0].stageType;
    var next := EachNext(ex, w, tenant, id, rest, sds, s, u, before);
    StartableUnless(ProgressOf(w, id), u, before, t);
    if t == u {
      RivalCompletes(ex, w, tenant, id, sds, s, u, before, SYSTEM_ACTOR);
      EachMore(ex, next, tenant, id, rest[1..], sds, s, u, before);
    } else {
      if next != w { OtherRuns(ex, w, tenant, id, t, sds, s, u, before); }
      EachExceedsAfter(ex, next, tenant, id, rest[1..], sds, s, u, before);
    }
  }

  lemma RivalFirst(ex: Executors, w: World, tenant: nat, id: nat, rest: seq<StageDefinition>, sds: seq<StageDefinition>,
                   s: StageType, u: StageType, before: set<StageType>)
    requires Mid(ex, w, tenant, id, sds, s, u, before) && before <= ProgressOf(w, id).Completed()
    requires Startable(ProgressOf(w, id).Status(u)) && Types(rest) <= Types(sds) && s in Types(rest)
    ensures AttemptsOf(DispatchEach(ex, Execute(ex, w, tenant, id, u, SYSTEM_ACTOR).world, tenant, id, rest).world, id, s)
          > MaxAttempts(Some(sds), s)
  {
    RivalCompletes(ex, w, tenant, id, sds, s, u, before, SYSTEM_ACTOR);
    ExecuteMid(ex, w, tenant, id, u, sds, s, u, before, SYSTEM_ACTOR);
    EachTouches(ex, Execute(ex, w, tenant, id, u, SYSTEM_ACTOR).world, tenant, id, rest, sds, s, u, before);
  }

  /** Both are listed, in either order. */
  lemma {:induction false} EachExceeds(ex: Executors, w: World, tenant: nat, id: nat, rest: seq<StageDefinition>,
                                       sds: seq<StageDefinition>, s: StageType, u: StageType, before: set<StageType>)
    requires Mid(ex, w, tenant, id, sds, s, u, before) && before <= ProgressOf(w, id).Completed()
    requires Types(rest) <= Types(sds) && u in Types(rest) && s in Types(rest) && ProgressOf(w, id).Status(u) != StageStatus.Complete
    ensures AttemptsOf(DispatchEach(ex, w, tenant, id, rest).world, id, s) > MaxAttempts(Some(sds), s)
    decreases |rest|
  {
    var t := rest[0].stageType;
    var next := EachNext(ex, w, tenant, id, rest, sds, s, u, before);
    StartableUnless(ProgressOf(w, id), u, before, t);
    if t == u {
      RivalFirst(ex, w, tenant, id, rest[1..], sds, s, u, before);
    } else if t == s {
      OtherRuns(ex, w, tenant, id, s, sds, s, u, before);
      EachExceedsAfter(ex, next, tenant, id, rest[1..], sds, s, u, before);
    } else {
      if next != w { OtherRuns(ex, w, tenant, id, t, sds, s, u, before); }
      EachExceeds(ex, next, tenant, id, rest[1..], sds, s, u, before);
    }
  }

  /** What the attempts of `s` come to: its budget, or more if `u` is dispatched beside it. */
  function Goal(sds: seq<StageDefinition>, s: StageType, u: StageType, before: set<StageType>): int {
    MaxAttempts(Some(sds), s) + if Hangs(sds, before, u) then 1 else 0
  }

  lemma DispatchReaches(ex: Executors, w: World, tenant: nat, id: nat, sds: seq<StageDefinition>, s: StageType,
                        u: StageType, before: set<StageType>)
    requires Mid(ex, w, tenant, id, sds, s, u, before) && before <= ProgressOf(w, id).Completed()
    requires ProgressOf(w, id).Status(u) != StageStatus.Complete
    ensures AttemptsOf(Dispatch(ex, w, tenant, id).world, id, s) >= Goal(sds, s, u, before)
  {
    var list := BothListed(ex, w, tenant, id, sds, s, u, before);
    if Hangs(sds, before, u) { EachExceeds(ex, w, tenant, id, list, sds, s, u, before); }
    else { EachTouches(ex, w, tenant, id, list, sds, s, u, before); }
  }

  // ---- Getting there ----

  /** Either the goal is reached, or something before `s` is still to complete. */
  predicate Coming(w: World, id: nat, sds: seq<StageDefinition>, s: StageType, u: StageType, before: set<StageType>) {
    AttemptsOf(w, id, s) >= Goal(sds, s, u, before) || !(before <= ProgressOf(w, id).Completed())
  }

  lemma {:induction false} ExecuteComing(ex: Executors, w: World, tenant: nat, id: nat, t: StageType, sds: seq<StageDefinition>,
                                         s: StageType, u: StageType, before: set<StageType>, actor: string)
    requires Mid(ex, w, tenant, id, sds, s, u, before) && Startable(ProgressOf(w, id).Status(t))
    requires !(before <= ProgressOf(w, id).Completed())
    ensures Coming(Execute(ex, w, tenant, id, t, actor).world, id, sds, s, u, before)
    decreases Remaining(w, id), 0, RetriesLeft(w, id, t)
  {
    var next, success := AttemptComing(ex, w, tenant, id, t, sds, s, u, before, actor);
    if success {
      MidDispatches(ex, next, tenant, id, sds, s, u, before);
      if before <= ProgressOf(next, id).Completed() {
        DispatchReaches(ex, next, tenant, id, sds, s, u, before);
      } else {
        DispatchComing(ex, next, tenant, id, sds, s, u, before);
      }
    } else if RetriesLeft(next, id, t) > 0 {
      ExecuteComing(ex, next, tenant, id, t, sds, s, u, before, SYSTEM_ACTOR);
    }
  }

  lemma AttemptComing(ex: Executors, w: World, tenant: nat, id: nat, t: StageType, sds: seq<StageDefinition>,
                      s: StageType, u: StageType, before: set<StageType>, actor: string) returns (next: World, success: bool)
    requires Mid(ex, w, tenant, id, sds, s, u, before) && Startable(ProgressOf(w, id).Status(t))
    requires !(before <= ProgressOf(w, id).Completed())
    ensures Mid(ex, next, tenant, id, sds, s, u, before)
    ensures Execute(ex, w, tenant, id, t, actor)
         == if success then OnCompleted(ex, next, tenant, id) else OnFailed(ex, next, tenant, id, t)
    ensures success ==> Remaining(next, id) < Remaining(w, id) && ProgressOf(next, id).Status(u) != StageStatus.Complete
    ensures !success ==>
      && ProgressOf(next, id).Completed() == ProgressOf(w, id).Completed() && Startable(ProgressOf(next, id).Status(t))
      && (RetriesLeft(next, id, t) > 0 ==> RetriesLeft(w, id, t) == RetriesLeft(next, id, t) + 1)
  {
    AttemptProgresses(ex, w, tenant, id, sds, t, actor);
    AttemptMid(ex, w, tenant, id, t, sds, s, u, before, actor);
    var (r, done) := Attempt(ex, w, tenant, id, t, actor);
    next, success := r.world, done;
    if t !in before { AttemptDecided(ex, w, tenant, id, t, actor, u, before); }
    AttemptEffect(ex, w, tenant, id, t, actor);
  }

  lemma DispatchedList(ex: Executors, w: World, tenant: nat, id: nat,
                       sds: seq<StageDefinition>) returns (list: seq<StageDefinition>)
    requires Active(w, tenant, id, sds)
    ensures Dispatch(ex, w, tenant, id) == DispatchEach(ex, w, tenant, id, list) && Types(list) <= Types(sds)
  {
    list := AutomaticOf(RunnableStages(sds, ProgressOf(w, id)));
    forall t <- Types(list) ensures t in Types(sds) {
      var sd :| sd in list && sd.stageType == t;
      assert sd in RunnableStages(sds, ProgressOf(w, id));
    }
  }

  lemma {:induction false} DispatchComing(ex: Executors, w: World, tenant: nat, id: nat, sds: seq<StageDefinition>,
                                          s: StageType, u: StageType, before: set<StageType>)
    requires Mid(ex, w, tenant, id, sds, s, u, before) && !(before <= ProgressOf(w, id).Completed())
    ensures Coming(Dispatch(ex, w, tenant, id).world, id, sds, s, u, before)
    decreases Remaining(w, id), 2, 0
  {
    var list := DispatchedList(ex, w, tenant, id, sds);
    EachComing(ex, w, tenant, id, list, sds, s, u, before);
  }

  lemma {:induction false} EachComing(ex: Executors, w: World, tenant: nat, id: nat, rest: seq<StageDefinition>,
                                      sds: seq<StageDefinition>, s: StageType, u: StageType, before: set<StageType>)
    requires Mid(ex, w, tenant, id, sds, s, u, before) && Types(rest) <= Types(sds) && Coming(w, id, sds, s, u, before)
    ensures Coming(DispatchEach(ex, w, tenant, id, rest).world, id, sds, s, u, before)
    decreases Remaining(w, id), 1, |rest|
  {
    if AttemptsOf(w, id, s) >= Goal(sds, s, u, before) {
      EachMore(ex, w, tenant, id, rest, sds, s, u, before);
    } else if rest != [] {
      var next := EachNext(ex, w, tenant, id, rest, sds, s, u, before);
      if next != w {
        ExecuteComing(ex, w, tenant, id, rest[0].stageType, sds, s, u, before, SYSTEM_ACTOR);
        FewerRemain(w, next, id);
      }
      EachComing(ex, next, tenant, id, rest[1..], sds, s, u, before);
    }
  }

  /** At rest, everything before `s` is COMPLETE. */
  lemma RestCompletesBefore(sds: seq<StageDefinition>, p: WorkflowProgress, s: StageType, u: StageType, before: set<StageType>)
    requires Roots(sds, s, before) && AtRest(sds, p) && Staged(p, u, before)
    ensures before <= p.Completed()
  {
    ReachedIsClosed(sds, p, s, u, before);
    Inside(before, p.Completed());
  }

  lemma Inside(before: set<StageType>, completed: set<StageType>)
    requires before <= completed + (AllStages() - before)
    ensures before <= completed
  {}

  lemma ReachedIsClosed(sds: seq<StageDefinition>, p: WorkflowProgress, s: StageType, u: StageType, before: set<StageType>)
    requires AncestralSet(sds, s, before) && AtRest(sds, p) && Staged(p, u, before)
    ensures ClosedSet(sds, p.Completed() + (AllStages() - before))
  {
    var reached := p.Completed() + (AllStages() - before);
    forall sd <- sds | sd.trigger == Automatic && sd.predecessors <= reached ensures sd.stageType in reached {
      if sd.stageType in before {
        assert sd.predecessors <= before;
        NeedsOnly(sd.predecessors, before, p);
      }
    }
  }

  lemma NeedsOnly(needs: set<StageType>, before: set<StageType>, p: WorkflowProgress)
    requires needs <= before && needs <= p.Completed() + (AllStages() - before)
    ensures p.AllComplete(needs)
  {
    CompleteAll(p, needs);
  }

  lemma FreshMid(ex: Executors, w: World, tenant: nat, id: nat, sds: seq<StageDefinition>, s: StageType,
                 u: StageType, before: set<StageType>)
    requires Rivals(sds, s, u, before) && Decides(ex, u, before)
    requires Active(w, tenant, id, sds) && forall t :: ProgressOf(w, id).Get(t) == FreshEntry(t)
    ensures Mid(ex, w, tenant, id, sds, s, u, before) && forall t :: ProgressOf(w, id).Status(t) == NotStarted
  {
    forall t ensures ProgressOf(w, id).Status(t) == NotStarted { assert ProgressOf(w, id).Get(t) == FreshEntry(t); }
  }

  /** The dispatch that starts a workflow. */
  lemma FreshComing(ex: Executors, w: World, tenant: nat, id: nat, sds: seq<StageDefinition>, s: StageType,
                    u: StageType, before: set<StageType>)
    requires Rivals(sds, s, u, before) && Decides(ex, u, before)
    requires Active(w, tenant, id, sds) && forall t :: ProgressOf(w, id).Get(t) == FreshEntry(t)
    ensures var w' := Dispatch(ex, w, tenant, id).world;
      Mid(ex, w', tenant, id, sds, s, u, before) && Coming(w', id, sds, s, u, before)
  {
    FreshMid(ex, w, tenant, id, sds, s, u, before);
    var list := DispatchedList(ex, w, tenant, id, sds);
    EachMid(ex, w, tenant, id, list, sds, s, u, before);
    if before <= ProgressOf(w, id).Completed() { DispatchReaches(ex, w, tenant, id, sds, s, u, before); }
    else { DispatchComing(ex, w, tenant, id, sds, s, u, before); }
  }

  /** When everything before `s` is within reach of the dispatch rule, and so is `u`, starting a workflow
      exceeds the budget of `s`. */
  lemma FreshExceeds(ex: Executors, w: World, tenant: nat, id: nat, sds: seq<StageDefinition>, s: StageType,
                     u: StageType, before: set<StageType>)
    requires Rivals(sds, s, u, before) && Roots(sds, s, before) && Hangs(sds, before, u) && Decides(ex, u, before)
    requires Active(w, tenant, id, sds) && forall t :: ProgressOf(w, id).Get(t) == FreshEntry(t)
    ensures !WithinBudget(sds, s, AttemptsOf(Dispatch(ex, w, tenant, id).world, id, s))
  {
    FreshComing(ex, w, tenant, id, sds, s, u, before);
    RivalsListed(sds, s, u, before);
    WithinBudgetIs(sds, s);
    FreshDispatchRests(ex, w, tenant, id, sds);
    RestCompletesBefore(sds, ProgressOf(Dispatch(ex, w, tenant, id).world, id), s, u, before);
  }
}
