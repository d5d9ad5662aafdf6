/** The workflow engine as functions on the stored state: four mutually recursive steps,
    each a sequence of separately committed commands. A step that raises keeps what was
    committed before it. */
module Engine {
  import opened Results
  import opened Stages
  import opened Templates
  import opened Assessments
  import opened Platform

  const SYSTEM_ACTOR := "system:workflow-engine"
  const DEFAULT_ERROR := "stage execution failed"

  /** The state left behind, and the error raised, if any. */
  datatype Run = Run(world: World, error: Option<Error>)

  function ProgressOf(w: World, id: nat): WorkflowProgress {
    if id < |w.assessments| then w.assessments[id].state.progress else NO_PROGRESS
  }

  function Remaining(w: World, id: nat): nat {
    |AllStages() - ProgressOf(w, id).Completed()|
  }

  function BoundStages(w: World, id: nat): Option<seq<StageDefinition>> {
    if id >= |w.assessments| then None
    else
      match w.assessments[id].state.template
      case None => None
      case Some(t) => if t < |w.templates| then Some(w.templates[t].stages) else None
  }

  function MaxAttempts(stages: Option<seq<StageDefinition>>, s: StageType): int {
    if stages.None? then 0
    else
      match Definition(stages.value, s)
      case None => 0
      case Some(d) => d.maxAttempts
  }

  function RetriesLeft(w: World, id: nat, s: StageType): nat {
    var left := MaxAttempts(BoundStages(w, id), s) - ProgressOf(w, id).Get(s).attempts;
    if left > 0 then left else 0
  }

  function ErrorText(error: Option<string>): string {
    if error.None? || error.value == "" then DEFAULT_ERROR else error.value
  }

  function AutomaticOf(sds: seq<StageDefinition>): (r: seq<StageDefinition>)
    ensures forall sd :: sd in r <==> sd in sds && sd.trigger == Automatic
  {
    if sds == [] then []
    else (if sds[0].trigger == Automatic then [sds[0]] else []) + AutomaticOf(sds[1..])
  }

  /** The places of the automatic definitions, in order. */
  function AutomaticPlaces(sds: seq<StageDefinition>): (ps: seq<nat>)
    ensures forall i :: 0 <= i < |ps| ==> ps[i] < |sds| && sds[ps[i]].trigger == Automatic
    ensures forall i, j :: 0 <= i < j < |ps| ==> ps[i] < ps[j]
    ensures forall k :: 0 <= k < |sds| && sds[k].trigger == Automatic ==> k in ps
  {
    if sds == [] then []
    else
      var n := |sds| - 1;
      AutomaticPlaces(sds[..n]) + (if sds[n].trigger == Automatic then [n] else [])
  }

  lemma {:induction false} AutomaticBack(sds: seq<StageDefinition>)
    requires sds != []
    ensures var n := |sds| - 1;
      AutomaticOf(sds) == AutomaticOf(sds[..n]) + (if sds[n].trigger == Automatic then [sds[n]] else [])
  {
    var n := |sds| - 1;
    if n > 0 {
      AutomaticBack(sds[1..]);
      assert sds[1..][..n - 1] == sds[..n][1..];
    } else {
      assert AutomaticOf(sds[1..]) == [] && AutomaticOf(sds[..n]) == [];
    }
  }

  /** Dispatch keeps the automatic ones of the stages offered, in the same order. */
  lemma {:induction false} AutomaticInOrder(sds: seq<StageDefinition>)
    ensures PickedAt(sds, AutomaticPlaces(sds), AutomaticOf(sds))
  {
    if sds != [] {
      var n := |sds| - 1;
      AutomaticInOrder(sds[..n]);
      AutomaticBack(sds);
      OneMorePicked(sds, AutomaticPlaces(sds[..n]), AutomaticOf(sds[..n]));
      assert AutomaticOf(sds[..n]) + [] == AutomaticOf(sds[..n]);
      assert AutomaticPlaces(sds[..n]) + [] == AutomaticPlaces(sds[..n]);
    }
  }

  // ---- Effects of the stage commands ----

  /** Only the named assessment's progress entry of stage `s` changed, to `e`. */
  predicate EntrySet(w: World, w': World, id: nat, e: StageEntry) {
    && id < |w.assessments| == |w'.assessments|
    && w'.templates == w.templates
    && w'.assessments == w.assessments[id := w'.assessments[id]]
    && w'.assessments[id].state == w.assessments[id].state.(progress := w'.assessments[id].state.progress)
    && (forall t :: ProgressOf(w', id).Get(t) == if t == e.stageType then e else ProgressOf(w, id).Get(t))
  }

  lemma StartEffect(w: World, tenant: nat, id: nat, s: StageType, actor: string)
    ensures Issue(w, tenant, id, StartStage(s, actor)).Ok? <==>
      && Visible(w, tenant, id) && w.assessments[id].state.status == Lifecycle.Running
      && Startable(ProgressOf(w, id).Status(s))
    ensures var r := Issue(w, tenant, id, StartStage(s, actor));
      r.Ok? ==>
        var e := ProgressOf(w, id).Get(s);
        EntrySet(w, r.value, id, e.(status := StageStatus.Running, attempts := e.attempts + 1, lastError := None))
  {}

  lemma CompleteEffect(w: World, tenant: nat, id: nat, s: StageType, ref: Option<ResultRef>, actor: string)
    ensures Issue(w, tenant, id, CompleteStage(s, ref, actor)).Ok? <==>
      && Visible(w, tenant, id) && w.assessments[id].state.status == Lifecycle.Running
      && ProgressOf(w, id).Status(s) == StageStatus.Running
    ensures var r := Issue(w, tenant, id, CompleteStage(s, ref, actor));
      r.Ok? ==>
        EntrySet(w, r.value, id, ProgressOf(w, id).Get(s).(status := StageStatus.Complete, resultRef := ref))
  {}

  lemma FailEffect(w: World, tenant: nat, id: nat, s: StageType, error: string, actor: string)
    ensures Issue(w, tenant, id, FailStage(s, error, actor)).Ok? <==>
      && Visible(w, tenant, id) && w.assessments[id].state.status == Lifecycle.Running
      && ProgressOf(w, id).Status(s) == StageStatus.Running
    ensures var r := Issue(w, tenant, id, FailStage(s, error, actor));
      r.Ok? ==>
        EntrySet(w, r.value, id, ProgressOf(w, id).Get(s).(status := StageStatus.Failed, lastError := Some(error)))
  {}

  /** One execution of a stage: start it, run its executor, record the outcome. The flag
      says whether the executor succeeded. */
  function Attempt(ex: Executors, w: World, tenant: nat, id: nat, s: StageType, actor: string): (Run, bool) {
    match Issue(w, tenant, id, StartStage(s, actor))
    case Err(e) => (Run(w, Some(e)), false)
    case Ok(started) =>
      var (ran, outcome) := RunExecutor(ex, started, id, s);
      var record := if outcome.success then CompleteStage(s, outcome.ref, actor)
                    else FailStage(s, ErrorText(outcome.error), actor);
      match Issue(ran, tenant, id, record)
      case Err(e) => (Run(ran, Some(e)), outcome.success)
      case Ok(recorded) => (Run(recorded, None), outcome.success)
  }

  /** What makes an attempt possible; nothing else can stop it. */
  predicate Attemptable(w: World, tenant: nat, id: nat, s: StageType) {
    && Visible(w, tenant, id)
    && w.assessments[id].state.status == Lifecycle.Running
    && Startable(ProgressOf(w, id).Status(s))
  }

  /** An attempt either is refused and changes nothing, or raises nothing, counts one more attempt
      and leaves the stage COMPLETE or FAILED as the executor said. */
  lemma AttemptEffect(ex: Executors, w: World, tenant: nat, id: nat, s: StageType, actor: string)
    ensures var (r, success) := Attempt(ex, w, tenant, id, s, actor);
      && (r.error == None <==> Attemptable(w, tenant, id, s))
      && (r.error.Some? ==> r.world == w)
      && (r.error == None ==>
            var e := ProgressOf(r.world, id).Get(s);
            && EntrySet(w, r.world, id, e)
            && e.attempts == ProgressOf(w, id).Get(s).attempts + 1
            && e.status == (if success then StageStatus.Complete else StageStatus.Failed))
  {
    StartEffect(w, tenant, id, s, actor);
    if Attemptable(w, tenant, id, s) {
      var started := Issue(w, tenant, id, StartStage(s, actor)).value;
      var (ran, outcome) := RunExecutor(ex, started, id, s);
      assert ran.assessments == started.assessments && ran.templates == w.templates;
      CompleteEffect(ran, tenant, id, s, outcome.ref, actor);
      FailEffect(ran, tenant, id, s, ErrorText(outcome.error), actor);
    }
  }

  /** The three commits of an attempt. */
  lemma AttemptParts(ex: Executors, w: World, tenant: nat, id: nat, s: StageType, actor: string)
    returns (started: World, ran: World, record: Command)
    requires Attemptable(w, tenant, id, s)
    ensures Issue(w, tenant, id, StartStage(s, actor)) == Ok(started)
    ensures RunExecutor(ex, started, id, s).0 == ran
    ensures var (r, success) := Attempt(ex, w, tenant, id, s, actor);
      && RunExecutor(ex, started, id, s).1.success == success
      && Issue(ran, tenant, id, record) == Ok(r.world)
      && (if success then record == CompleteStage(s, RunExecutor(ex, started, id, s).1.ref, actor)
          else record == FailStage(s, ErrorText(RunExecutor(ex, started, id, s).1.error), actor))
  {
    AttemptEffect(ex, w, tenant, id, s, actor);
    started := Issue(w, tenant, id, StartStage(s, actor)).value;
    var outcome := RunExecutor(ex, started, id, s).1;
    ran := RunExecutor(ex, started, id, s).0;
    record := if outcome.success then CompleteStage(s, outcome.ref, actor)
              else FailStage(s, ErrorText(outcome.error), actor);
  }

  /** What an accepted attempt records: with the executor's reference the completion, or with its error text, or
      a fixed one for a missing or empty text, the failure. */
  lemma AttemptRecords(ex: Executors, w: World, tenant: nat, id: nat, s: StageType, actor: string) returns (started: World)
    requires Attemptable(w, tenant, id, s)
    ensures Issue(w, tenant, id, StartStage(s, actor)) == Ok(started)
    ensures var outcome := RunExecutor(ex, started, id, s).1;
      var e, e' := ProgressOf(w, id).Get(s), ProgressOf(Attempt(ex, w, tenant, id, s, actor).0.world, id).Get(s);
      if outcome.success then e' == StageEntry(s, StageStatus.Complete, e.attempts + 1, outcome.ref, None)
      else
        e' == StageEntry(s, StageStatus.Failed, e.attempts + 1, e.resultRef,
                         Some(if outcome.error == None || outcome.error == Some("") then "stage execution failed"
                              else outcome.error.value))
  {
    StartEffect(w, tenant, id, s, actor);
    started := Issue(w, tenant, id, StartStage(s, actor)).value;
    var (ran, outcome) := RunExecutor(ex, started, id, s);
    assert ran.assessments == started.assessments && ran.templates == w.templates;
    CompleteEffect(ran, tenant, id, s, outcome.ref, actor);
    FailEffect(ran, tenant, id, s, ErrorText(outcome.error), actor);
  }

  /** The executor that runs: an arbitrary one, which leaves the stored state alone, or the analysis pipeline, which
      succeeds exactly when the row it adds is COMPLETE, and then refers to it, and otherwise says its error. */
  lemma ExecutorRuns(ex: Executors, w: World, id: nat, s: StageType)
    requires id < |w.assessments|
    ensures var (w', outcome) := RunExecutor(ex, w, id, s);
      if s !in ex.analysis then w' == w && outcome == ex.script(w, id, s)
      else
        && |w'.results| == |w.results| + 1 && w.results <= w'.results && w'.assessments == w.assessments
        && var row := w'.results[|w.results|];
        && row.tenant == w.assessments[id].state.tenant && row.assessment == id
        && row.hazard == w.assessments[id].state.hazard && row.stage == s
        && outcome == if row.indicators.Some? then Outcome(true, Some(ResultRow(|w.results|)), None)
                      else Outcome(false, None, row.error)
  {}

  lemma FewerRemain(w: World, w': World, id: nat)
    requires ProgressOf(w, id).Completed() <= ProgressOf(w', id).Completed()
    ensures Remaining(w', id) <= Remaining(w, id)
    ensures ProgressOf(w, id).Completed() != ProgressOf(w', id).Completed() ==> Remaining(w', id) < Remaining(w, id)
  {
    var before, after := ProgressOf(w, id).Completed(), ProgressOf(w', id).Completed();
    var all := AllStages();
    assert before <= all && after <= all;
    Subset(all - after, all - before);
    if before != after {
      var s :| s in after && s !in before;
      assert s in all - before && s !in all - after;
    }
  }

  lemma {:induction false} Subset<T>(a: set<T>, b: set<T>)
    requires a <= b
    ensures |a| <= |b|
    ensures a != b ==> |a| < |b|
  {
    if a != {} {
      var x :| x in a;
      Subset(a - {x}, b - {x});
      assert a - {x} != b - {x} <==> a != b;
    }
  }

  /** Why the engine terminates: an attempt that succeeds leaves fewer stages to complete, one that
      fails spends a retry if it will be retried. */
  lemma {:induction false} AttemptSpends(ex: Executors, w: World, tenant: nat, id: nat, s: StageType, actor: string)
    requires Attempt(ex, w, tenant, id, s, actor).0.error == None
    ensures var (r, success) := Attempt(ex, w, tenant, id, s, actor);
      && ProgressOf(w, id).Completed() <= ProgressOf(r.world, id).Completed()
      && (success ==> Remaining(r.world, id) < Remaining(w, id))
      && (!success ==> ProgressOf(r.world, id).Completed() == ProgressOf(w, id).Completed()
                       && (RetriesLeft(r.world, id, s) > 0 ==> RetriesLeft(w, id, s) == RetriesLeft(r.world, id, s) + 1))
  {
    AttemptEffect(ex, w, tenant, id, s, actor);
    var (r, success) := Attempt(ex, w, tenant, id, s, actor);
    if success {
      assert s in ProgressOf(r.world, id).Completed() && s !in ProgressOf(w, id).Completed();
      FewerRemain(w, r.world, id);
    }
  }

  // ---- The engine ----

  ghost function Execute(ex: Executors, w: World, tenant: nat, id: nat, s: StageType, actor: string): (r: Run)
    ensures ProgressOf(w, id).Completed() <= ProgressOf(r.world, id).Completed()
    decreases Remaining(w, id), 0, 2 * RetriesLeft(w, id, s) + 1, 0
  {
    var (r, success) := Attempt(ex, w, tenant, id, s, actor);
    if r.error.Some? then
      AttemptEffect(ex, w, tenant, id, s, actor);
      r
    else
      AttemptSpends(ex, w, tenant, id, s, actor);
      if success then OnCompleted(ex, r.world, tenant, id)
      else OnFailed(ex, r.world, tenant, id, s)
  }

  ghost function OnCompleted(ex: Executors, w: World, tenant: nat, id: nat): (r: Run)
    ensures ProgressOf(w, id).Completed() <= ProgressOf(r.world, id).Completed()
    decreases Remaining(w, id), 3, 0, 0
  {
    if !Visible(w, tenant, id) then Run(w, Some(NotFound))
    else if BoundStages(w, id).None? then Run(w, None)
    else if ProgressOf(w, id).AllComplete(Types(BoundStages(w, id).value)) then
      match IssueAdvance(w, tenant, id, SYSTEM_ACTOR)
      case Err(e) => Run(w, Some(e))
      case Ok(advanced) => Run(advanced, None)
    else
      Dispatch(ex, w, tenant, id)
  }

  ghost function OnFailed(ex: Executors, w: World, tenant: nat, id: nat, s: StageType): (r: Run)
    ensures ProgressOf(w, id).Completed() <= ProgressOf(r.world, id).Completed()
    decreases Remaining(w, id), 0, if RetriesLeft(w, id, s) > 0 then 2 * RetriesLeft(w, id, s) + 2 else 0, 0
  {
    if !Visible(w, tenant, id) then Run(w, Some(NotFound))
    else if BoundStages(w, id).None? then Run(w, None)
    else if ProgressOf(w, id).Get(s).attempts < MaxAttempts(BoundStages(w, id), s) then
      Execute(ex, w, tenant, id, s, SYSTEM_ACTOR)
    else Run(w, None)
  }

  ghost function Dispatch(ex: Executors, w: World, tenant: nat, id: nat): (r: Run)
    ensures ProgressOf(w, id).Completed() <= ProgressOf(r.world, id).Completed()
    decreases Remaining(w, id), 2, 0, 0
  {
    if !Visible(w, tenant, id) then Run(w, Some(NotFound))
    else if BoundStages(w, id).None? then Run(w, None)
    else
      DispatchEach(ex, w, tenant, id, AutomaticOf(RunnableStages(BoundStages(w, id).value, ProgressOf(w, id))))
  }

  /** The dispatch loop: each listed stage is looked at again just before it is run. */
  ghost function DispatchEach(ex: Executors, w: World, tenant: nat, id: nat, rest: seq<StageDefinition>): (r: Run)
    ensures ProgressOf(w, id).Completed() <= ProgressOf(r.world, id).Completed()
    decreases Remaining(w, id), 1, |rest|, 0
  {
    if rest == [] then Run(w, None)
    else if !Visible(w, tenant, id) then Run(w, Some(NotFound))
    else if !Startable(ProgressOf(w, id).Status(rest[0].stageType)) then
      DispatchEach(ex, w, tenant, id, rest[1..])
    else
      var r := Execute(ex, w, tenant, id, rest[0].stageType, SYSTEM_ACTOR);
      if r.error.Some? then r
      else
        FewerRemain(w, r.world, id);
        DispatchEach(ex, r.world, tenant, id, rest[1..])
  }

  /** A failure is retried, in the engine's name, exactly while the attempts are fewer than the stage's own
      definition allows. */
  lemma RetriedIff(ex: Executors, w: World, tenant: nat, id: nat, s: StageType)
    requires Visible(w, tenant, id) && BoundStages(w, id).Some?
    ensures var sds := BoundStages(w, id).value;
      var r := OnFailed(ex, w, tenant, id, s);
      && (forall i :: 0 <= i < |sds| && FirstOfType(sds, i) && sds[i].stageType == s ==>
            r == if ProgressOf(w, id).Get(s).attempts < sds[i].maxAttempts
                 then Execute(ex, w, tenant, id, s, "system:workflow-engine") else Run(w, None))
      && (s !in Types(sds) ==> r == Run(w, None))
  {
    var sds := BoundStages(w, id).value;
    forall i | 0 <= i < |sds| && FirstOfType(sds, i) && sds[i].stageType == s
      ensures MaxAttempts(Some(sds), s) == sds[i].maxAttempts
    {
      FirstDefined(sds, i);
    }
  }

  /** The loop from its i-th stage on. */
  lemma EachFrom(ex: Executors, w: World, tenant: nat, id: nat, list: seq<StageDefinition>, i: nat)
    requires i < |list|
    ensures var s := list[i].stageType;
      DispatchEach(ex, w, tenant, id, list[i..]) ==
        if !Visible(w, tenant, id) then Run(w, Some(NotFound))
        else if !Startable(ProgressOf(w, id).Status(s)) then DispatchEach(ex, w, tenant, id, list[i + 1..])
        else
          var r := Execute(ex, w, tenant, id, s, SYSTEM_ACTOR);
          if r.error.Some? then r else DispatchEach(ex, r.world, tenant, id, list[i + 1..])
  {
    assert list[i..][1..] == list[i + 1..];
  }

  ghost function StartAll(ex: Executors, w: World, tenant: nat, id: nat, template: nat, actor: string): Run {
    match IssueStartWorkflow(w, tenant, id, template, actor)
    case Err(e) => Run(w, Some(e))
    case Ok(started) => Dispatch(ex, started, tenant, id)
  }
}
