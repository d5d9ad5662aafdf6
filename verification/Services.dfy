/** The services as they run: handlers that load, change, save and log within one database, and the
    engine that issues their commands one after another. Each is proved to do exactly what its
    specification function says. */
module Services {
  import opened Results
  import opened Stages
  import opened Templates
  import opened Assessments
  import opened Platform
  import opened Engine

  class Database {
    var assessments: seq<Stored>
    var templates: seq<Template>
    var outbox: seq<OutboxRow>
    var results: seq<StageResult>

    function Snapshot(): World
      reads this
    {
      World(assessments, templates, outbox, results)
    }

    constructor (templates: seq<Template>)
      ensures Snapshot() == World([], templates, [], [])
    {
      assessments, this.templates, outbox, results := [], templates, [], [];
    }

    method Load(tenant: nat, id: nat) returns (r: Result<Assessment, Error>)
      ensures r.Ok? <==> Visible(Snapshot(), tenant, id)
      ensures r.Ok? ==> fresh(r.value) && r.value.State() == assessments[id].state && r.value.version == assessments[id].version
      ensures r.Err? ==> r.error == NotFound
    {
      if id >= |assessments| || assessments[id].state.tenant != tenant {
        return Err(NotFound);
      }
      var a := new Assessment.Load(assessments[id].state, assessments[id].version);
      return Ok(a);
    }

    /** Writes the aggregate back unless someone else saved it since it was loaded. */
    method Save(id: nat, a: Assessment, expected: nat) returns (r: Result<(), Error>)
      requires id < |assessments|
      modifies this`assessments
      ensures r.Ok? <==> old(assessments)[id].version == expected
      ensures assessments == if r.Ok? then old(assessments)[id := Stored(a.State(), expected + 1)] else old(assessments)
      ensures r.Err? ==> r.error == ConcurrentUpdate
    {
      if assessments[id].version != expected {
        return Err(ConcurrentUpdate);
      }
      assessments := assessments[id := Stored(a.State(), assessments[id].version + 1)];
      return Ok(());
    }

    method AppendEvent(of: Aggregate, event: Event)
      modifies this`outbox
      ensures outbox == Append(old(outbox), of, event)
    {
      var next := MaxSequence(outbox, of) + 1;
      outbox := outbox + [OutboxRow(of, next, event)];
    }

    method AppendEvents(of: Aggregate, events: seq<Event>)
      modifies this`outbox
      ensures outbox == AppendAll(old(outbox), of, events)
    {
      for i := 0 to |events|
        invariant outbox == AppendAll(old(outbox), of, events[..i])
      {
        assert events[..i + 1][..i] == events[..i];
        AppendEvent(of, events[i]);
      }
      assert events[..|events|] == events;
    }

    /** Either the specified next state, or the specified error and no change. */
    predicate Committed(spec: Result<World, Error>, before: World, r: Result<(), Error>)
      reads this
    {
      match spec
      case Ok(w) => Snapshot() == w && r == Ok(())
      case Err(e) => Snapshot() == before && r == Err(e)
    }

    method HandleCreate(tenant: nat, name: string, hazard: HazardType, actor: string) returns (r: Result<(), Error>)
      modifies this
      ensures Committed(CreateAssessment(old(Snapshot()), tenant, name, hazard, actor), old(Snapshot()), r)
    {
      if Blank(name) {
        return Err(BlankText);
      }
      var id := |assessments|;
      assessments := assessments + [Stored(NewState(tenant, name, hazard, actor), 0)];
      AppendEvent(AssessmentId(id), Created(tenant, hazard, name, actor));
      return Ok(());
    }

    method Handle(tenant: nat, id: nat, cmd: Command) returns (r: Result<(), Error>)
      modifies this
      ensures Committed(Issue(old(Snapshot()), tenant, id, cmd), old(Snapshot()), r)
    {
      var loaded := Load(tenant, id);
      match loaded
      case Err(e) => return Err(e);
      case Ok(a) =>
        var changed := a.Execute(cmd);
        match changed {
          case Err(e) => return Err(e);
          case Ok(events) =>
            var saved := Save(id, a, a.version);
            match saved {
              case Err(e) => return Err(e);
              case Ok(_) =>
                AppendEvents(AssessmentId(id), events);
                return Ok(());
            }
        }
    }

    method HandleStartWorkflow(tenant: nat, id: nat, template: nat, actor: string) returns (r: Result<(), Error>)
      modifies this
      ensures Committed(IssueStartWorkflow(old(Snapshot()), tenant, id, template, actor), old(Snapshot()), r)
    {
      var loaded := Load(tenant, id);
      match loaded
      case Err(e) => return Err(e);
      case Ok(a) =>
        if template >= |templates| {
          return Err(TemplateNotFound);
        }
        if templates[template].status != Published {
          return Err(Guard("not published"));
        }
        if templates[template].hazard != a.hazard {
          return Err(Guard("hazard type"));
        }
        r := Handle(tenant, id, StartWorkflow(template, Types(templates[template].stages), actor));
    }

    method HandleAdvance(tenant: nat, id: nat, actor: string) returns (r: Result<(), Error>)
      modifies this
      ensures Committed(IssueAdvance(old(Snapshot()), tenant, id, actor), old(Snapshot()), r)
    {
      var loaded := Load(tenant, id);
      match loaded
      case Err(e) => return Err(e);
      case Ok(a) =>
        match a.template {
          case None => return Err(Guard("no workflow bound"));
          case Some(t) =>
            if t >= |templates| {
              return Err(TemplateNotFound);
            }
            r := Handle(tenant, id, AdvancePastRunning(Types(templates[t].stages), actor));
        }
    }

    // ---- The analysis pipeline ----

    /** Fills the inputs from the latest results of the dependencies, noting the missing ones. */
    method GatherInputs(ex: Executors, tenant: nat, hazard: HazardType, id: nat, s: StageType) returns (r: Option<Inputs>)
      ensures r == Gather(ex, results, tenant, hazard, id, s)
    {
      var deps := ex.dependencies(hazard, s);
      if deps == [] {
        return ex.provide(|results|, hazard, s);
      }
      var inputs: Inputs := map[];
      var missing: seq<StageType> := [];
      for i := 0 to |deps|
        invariant missing == [] ==> Collect(results, tenant, id, deps[..i]) == Some(inputs)
        invariant missing != [] ==> Collect(results, tenant, id, deps[..i]) == None
      {
        assert deps[..i + 1][..i] == deps[..i];
        match Latest(results, tenant, id, deps[i].stage)
        case None => missing := missing + [deps[i].stage];
        case Some(k) =>
          var indicators := results[k].indicators.value;
          var mapping := deps[i].mapping;
          ghost var before := inputs;
          for j := 0 to |mapping|
            invariant inputs == Fill(before, mapping[..j], indicators)
          {
            assert mapping[..j + 1][..j] == mapping[..j];
            var (source, target) := mapping[j];
            inputs := inputs[target := if source in indicators then Some(indicators[source]) else None];
          }
          assert mapping[..|mapping|] == mapping;
      }
      assert deps[..|deps|] == deps;
      return if missing == [] then Some(inputs) else None;
    }

    /** Computes the row of the next version; whatever goes wrong makes it a FAILED one. */
    method ComputeStageResult(ex: Executors, id: nat, s: StageType) returns (row: StageResult)
      requires id < |assessments|
      ensures row == NextResult(ex, results, assessments[id].state, id, s)
    {
      var a := assessments[id].state;
      var version := MaxVersion(results, a.tenant, id, s) + 1;
      var formula := Formula(ex.strategy(a.hazard), None);
      if formula.strategy.Some? {
        formula := formula.(calculator := ex.calculator(a.hazard, s));
      }
      row := StageResult(a.tenant, id, a.hazard, s, version, None, map[], 0, None, formula, Some(ex.failureText(|results|)));
      if formula.calculator.Some? {
        var gathered := GatherInputs(ex, a.tenant, a.hazard, id, s);
        if gathered.Some? {
          var comparison := Comparison(ex, results, a.tenant, a.hazard, id, s);
          var computed := ex.compute(a.hazard, s, gathered.value, comparison);
          if computed.Some? {
            row := StageResult(a.tenant, id, a.hazard, s, version, computed, Overlay(gathered.value, computed.value),
                               |comparison|, Some(Confidence(|comparison| + 1)), formula, None);
          }
        }
      }
    }

    method RecordStageResult(ex: Executors, id: nat, s: StageType) returns (row: StageResult)
      requires id < |assessments|
      modifies this`results, this`outbox
      ensures Snapshot() == RecordResult(ex, old(Snapshot()), id, s)
      ensures results == old(results) + [row]
    {
      row := ComputeStageResult(ex, id, s);
      var key := |results|;
      results := results + [row];
      AppendEvent(StageResultId(key), if row.Completed() then ResultComputed(s, row.version) else ResultFailed(s, row.version));
    }

    method RunStageExecutor(ex: Executors, id: nat, s: StageType) returns (outcome: Outcome)
      modifies this`results, this`outbox
      ensures RunExecutor(ex, old(Snapshot()), id, s) == (Snapshot(), outcome)
    {
      if s !in ex.analysis {
        return ex.script(Snapshot(), id, s);
      }
      if id >= |assessments| {
        return Outcome(false, None, Some("not found"));
      }
      var key := |results|;
      var row := RecordStageResult(ex, id, s);
      if row.Completed() {
        return Outcome(true, Some(ResultRow(key)), None);
      }
      return Outcome(false, None, row.error);
    }
  }

  class WorkflowEngine {
    const db: Database
    const executors: Executors

    constructor (db: Database, executors: Executors)
      ensures this.db == db && this.executors == executors
    {
      this.db := db;
      this.executors := executors;
    }

    method StartWorkflow(tenant: nat, id: nat, template: nat, actor: string) returns (error: Option<Error>)
      modifies db
      ensures Run(db.Snapshot(), error) == StartAll(executors, old(db.Snapshot()), tenant, id, template, actor)
    {
      var started := db.HandleStartWorkflow(tenant, id, template, actor);
      match started
      case Err(e) => return Some(e);
      case Ok(_) => error := DispatchRunnableStages(tenant, id);
    }

    /** Starts the stage, runs its executor and records the outcome. */
    method AttemptStage(tenant: nat, id: nat, s: StageType, actor: string) returns (error: Option<Error>, success: bool)
      modifies db
      ensures (Run(db.Snapshot(), error), success) == Attempt(executors, old(db.Snapshot()), tenant, id, s, actor)
    {
      var started := db.Handle(tenant, id, StartStage(s, actor));
      if started.Err? {
        return Some(started.error), false;
      }
      var outcome := db.RunStageExecutor(executors, id, s);
      var recorded;
      if outcome.success {
        recorded := db.Handle(tenant, id, CompleteStage(s, outcome.ref, actor));
      } else {
        recorded := db.Handle(tenant, id, FailStage(s, ErrorText(outcome.error), actor));
      }
      return (match recorded case Ok(_) => None case Err(e) => Some(e)), outcome.success;
    }

    method ExecuteStage(tenant: nat, id: nat, s: StageType, actor: string) returns (error: Option<Error>)
      modifies db
      ensures Run(db.Snapshot(), error) == Execute(executors, old(db.Snapshot()), tenant, id, s, actor)
      decreases Remaining(db.Snapshot(), id), 0, 2 * RetriesLeft(db.Snapshot(), id, s) + 1, 0
    {
      ghost var w := db.Snapshot();
      var success;
      error, success := AttemptStage(tenant, id, s, actor);
      if error.Some? {
        return;
      }
      AttemptSpends(executors, w, tenant, id, s, actor);
      if success {
        error := OnStageCompleted(tenant, id);
      } else {
        error := OnStageFailed(tenant, id, s);
      }
    }

    method OnStageCompleted(tenant: nat, id: nat) returns (error: Option<Error>)
      modifies db
      ensures Run(db.Snapshot(), error) == OnCompleted(executors, old(db.Snapshot()), tenant, id)
      decreases Remaining(db.Snapshot(), id), 3, 0, 0
    {
      var loaded := db.Load(tenant, id);
      if loaded.Err? {
        return Some(NotFound);
      }
      var stages := BoundStages(db.Snapshot(), id);
      if stages.None? {
        return None;
      }
      if loaded.value.progress.AllComplete(Types(stages.value)) {
        var advanced := db.HandleAdvance(tenant, id, SYSTEM_ACTOR);
        return match advanced case Ok(_) => None case Err(e) => Some(e);
      }
      error := DispatchRunnableStages(tenant, id);
    }

    method OnStageFailed(tenant: nat, id: nat, s: StageType) returns (error: Option<Error>)
      modifies db
      ensures Run(db.Snapshot(), error) == OnFailed(executors, old(db.Snapshot()), tenant, id, s)
      decreases Remaining(db.Snapshot(), id), 0,
        if RetriesLeft(db.Snapshot(), id, s) > 0 then 2 * RetriesLeft(db.Snapshot(), id, s) + 2 else 0, 0
    {
      var loaded := db.Load(tenant, id);
      if loaded.Err? {
        return Some(NotFound);
      }
      var stages := BoundStages(db.Snapshot(), id);
      if stages.None? {
        return None;
      }
      var definition := Definition(stages.value, s);
      if definition.Some? && loaded.value.progress.Get(s).attempts < definition.value.maxAttempts {
        error := ExecuteStage(tenant, id, s, SYSTEM_ACTOR);
      } else {
        error := None;
      }
    }

    /** Runs every automatic stage that can run now, from a list computed once. */
    method DispatchRunnableStages(tenant: nat, id: nat) returns (error: Option<Error>)
      modifies db
      ensures Run(db.Snapshot(), error) == Dispatch(executors, old(db.Snapshot()), tenant, id)
      decreases Remaining(db.Snapshot(), id), 2, 0, 0
    {
      var loaded := db.Load(tenant, id);
      if loaded.Err? {
        return Some(NotFound);
      }
      var stages := BoundStages(db.Snapshot(), id);
      if stages.None? {
        return None;
      }
      error := DispatchListed(tenant, id, AutomaticOf(RunnableStages(stages.value, loaded.value.progress)));
    }

    /** The dispatch loop: each listed stage is looked at again before it is run. */
    method DispatchListed(tenant: nat, id: nat, automatic: seq<StageDefinition>) returns (error: Option<Error>)
      modifies db
      ensures Run(db.Snapshot(), error) == DispatchEach(executors, old(db.Snapshot()), tenant, id, automatic)
      decreases Remaining(db.Snapshot(), id), 1, |automatic|, 0
    {
      for i := 0 to |automatic|
        invariant Remaining(db.Snapshot(), id) <= Remaining(old(db.Snapshot()), id)
        invariant DispatchEach(executors, db.Snapshot(), tenant, id, automatic[i..])
               == DispatchEach(executors, old(db.Snapshot()), tenant, id, automatic)
      {
        ghost var w := db.Snapshot();
        EachFrom(executors, w, tenant, id, automatic, i);
        var current := db.Load(tenant, id);
        if current.Err? {
          return Some(NotFound);
        }
        var s := automatic[i].stageType;
        if Startable(current.value.progress.Status(s)) {
          error := ExecuteStage(tenant, id, s, SYSTEM_ACTOR);
          if error.Some? {
            return;
          }
          FewerRemain(w, db.Snapshot(), id);
        }
      }
      return None;
    }
  }
}
