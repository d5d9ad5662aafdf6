/** The stored state shared by every service, and each atomic command on it:
    load, check, change, save, append events, commit. */
module Platform {
  import opened Results
  import opened Stages
  import opened Templates
  import opened Assessments

  /** An assessment row with its optimistic-concurrency version. */
  datatype Stored = Stored(state: AssessmentState, version: nat)

  datatype Template = Template(hazard: HazardType, status: TemplateStatus, stages: seq<StageDefinition>)

  datatype Aggregate = AssessmentId(id: nat) | StageResultId(id: nat)

  datatype OutboxRow = OutboxRow(aggregate: Aggregate, sequence: nat, event: Event)

  type Indicators = map<string, real>
  type Inputs = map<string, Option<real>>

  datatype ConfidenceTier = Low | Moderate | High

  /** By the size of the sample, the result itself included. */
  function Confidence(size: nat): ConfidenceTier {
    if size >= 5 then High else if size >= 2 then Moderate else Low
  }

  /** The versions of the hazard strategy and of the calculator, as far as they were found. */
  datatype Formula = Formula(strategy: Option<string>, calculator: Option<string>)

  /** One versioned piece of evidence; its id is its position in the ledger. */
  datatype StageResult = StageResult(
    tenant: nat,
    assessment: nat,
    hazard: HazardType,
    stage: StageType,
    version: nat,
    indicators: Option<Indicators>,
    snapshot: Inputs,
    historicalCount: nat,
    confidence: Option<ConfidenceTier>,
    formula: Formula,
    error: Option<string>)
  {
    predicate Completed() {
      indicators.Some?
    }

    predicate Of(tenant: nat, assessment: nat, stage: StageType) {
      this.tenant == tenant && this.assessment == assessment && this.stage == stage
    }
  }

  datatype World = World(
    assessments: seq<Stored>,
    templates: seq<Template>,
    outbox: seq<OutboxRow>,
    results: seq<StageResult>)

  // ---- The outbox ----

  function MaxSequence(outbox: seq<OutboxRow>, of: Aggregate): nat {
    if outbox == [] then 0
    else
      var row := outbox[|outbox| - 1];
      var before := MaxSequence(outbox[..|outbox| - 1], of);
      if row.aggregate == of && row.sequence > before then row.sequence else before
  }

  function Append(outbox: seq<OutboxRow>, of: Aggregate, event: Event): seq<OutboxRow> {
    outbox + [OutboxRow(of, MaxSequence(outbox, of) + 1, event)]
  }

  function AppendAll(outbox: seq<OutboxRow>, of: Aggregate, events: seq<Event>): seq<OutboxRow> {
    if events == [] then outbox
    else Append(AppendAll(outbox, of, events[..|events| - 1]), of, events[|events| - 1])
  }

  /** The rows of one aggregate, in commit order. */
  function RowsOf(outbox: seq<OutboxRow>, of: Aggregate): seq<OutboxRow> {
    if outbox == [] then []
    else
      var row := outbox[|outbox| - 1];
      RowsOf(outbox[..|outbox| - 1], of) + (if row.aggregate == of then [row] else [])
  }

  // ---- Commands ----

  /** Whether the caller's tenant may see the assessment at all. */
  predicate Visible(w: World, tenant: nat, id: nat) {
    id < |w.assessments| && w.assessments[id].state.tenant == tenant
  }

  function CreateAssessment(w: World, tenant: nat, name: string, hazard: HazardType, actor: string)
    : Result<World, Error>
  {
    if Blank(name) then Err(BlankText)
    else
      Ok(w.(assessments := w.assessments + [Stored(NewState(tenant, name, hazard, actor), 0)],
            outbox := Append(w.outbox, AssessmentId(|w.assessments|), Created(tenant, hazard, name, actor))))
  }

  /** One command on one assessment. */
  function Issue(w: World, tenant: nat, id: nat, cmd: Command): Result<World, Error> {
    if !Visible(w, tenant, id) then Err(NotFound)
    else
      match w.assessments[id].state.Apply(cmd)
      case Err(e) => Err(e)
      case Ok(c) =>
        Ok(w.(assessments := w.assessments[id := Stored(c.state, w.assessments[id].version + 1)],
              outbox := AppendAll(w.outbox, AssessmentId(id), c.events)))
  }

  /** Binds a published template of the same hazard type and starts the workflow. */
  function IssueStartWorkflow(w: World, tenant: nat, id: nat, template: nat, actor: string): Result<World, Error> {
    if !Visible(w, tenant, id) then Err(NotFound)
    else if template >= |w.templates| then Err(TemplateNotFound)
    else if w.templates[template].status != Published then Err(Guard("not published"))
    else if w.templates[template].hazard != w.assessments[id].state.hazard then Err(Guard("hazard type"))
    else Issue(w, tenant, id, StartWorkflow(template, Types(w.templates[template].stages), actor))
  }

  function IssueAdvance(w: World, tenant: nat, id: nat, actor: string): Result<World, Error> {
    if !Visible(w, tenant, id) then Err(NotFound)
    else
      match w.assessments[id].state.template
      case None => Err(Guard("no workflow bound"))
      case Some(t) =>
        if t >= |w.templates| then Err(TemplateNotFound)
        else Issue(w, tenant, id, AdvancePastRunning(Types(w.templates[t].stages), actor))
  }

  // ---- The evidence ledger ----

  datatype Outcome = Outcome(success: bool, ref: Option<ResultRef>, error: Option<string>)

  datatype Dependency = Dependency(stage: StageType, mapping: seq<(string, string)>)

  /** Everything that decides how a stage executes. Stages in `analysis` run the analysis pipeline;
      all others return what `script` says in the world at that moment, so that an arbitrary script
      stands for an arbitrary executor. */
  datatype Executors = Executors(
    analysis: set<StageType>,
    script: (World, nat, StageType) -> Outcome,
    strategy: HazardType -> Option<string>,
    calculator: (HazardType, StageType) -> Option<string>,
    dependencies: (HazardType, StageType) -> seq<Dependency>,
    usesHistory: (HazardType, StageType) -> bool,
    provide: (nat, HazardType, StageType) -> Option<Inputs>,
    compute: (HazardType, StageType, Inputs, seq<Inputs>) -> Option<Indicators>,
    failureText: nat -> string)

  /** The position of the newest COMPLETE row: highest version, latest on a tie. */
  function Latest(rs: seq<StageResult>, tenant: nat, id: nat, s: StageType): (k: Option<nat>)
    ensures k.Some? ==> k.value < |rs| && rs[k.value].Of(tenant, id, s) && rs[k.value].Completed()
  {
    if rs == [] then None
    else
      var n := |rs| - 1;
      var before := Latest(rs[..n], tenant, id, s);
      if rs[n].Of(tenant, id, s) && rs[n].Completed()
         && (before == None || rs[n].version >= rs[before.value].version)
      then Some(n) else before
  }

  function MaxVersion(rs: seq<StageResult>, tenant: nat, id: nat, s: StageType): nat {
    if rs == [] then 0
    else
      var last := rs[|rs| - 1];
      var before := MaxVersion(rs[..|rs| - 1], tenant, id, s);
      if last.Of(tenant, id, s) && last.version > before then last.version else before
  }

  function Fill(inputs: Inputs, mapping: seq<(string, string)>, indicators: Indicators): Inputs {
    if mapping == [] then inputs
    else
      var (source, target) := mapping[|mapping| - 1];
      Fill(inputs, mapping[..|mapping| - 1], indicators)
        [target := if source in indicators then Some(indicators[source]) else None]
  }

  /** The inputs read from the latest results of the declared dependencies; None when one is missing. */
  function Collect(rs: seq<StageResult>, tenant: nat, id: nat, deps: seq<Dependency>): Option<Inputs> {
    if deps == [] then Some(map[])
    else
      var dep := deps[|deps| - 1];
      match (Collect(rs, tenant, id, deps[..|deps| - 1]), Latest(rs, tenant, id, dep.stage))
      case (Some(inputs), Some(k)) => Some(Fill(inputs, dep.mapping, rs[k].indicators.value))
      case _ => None
  }

  function Gather(ex: Executors, rs: seq<StageResult>, tenant: nat, hazard: HazardType, id: nat, s: StageType)
    : Option<Inputs>
  {
    var deps := ex.dependencies(hazard, s);
    if deps == [] then ex.provide(|rs|, hazard, s) else Collect(rs, tenant, id, deps)
  }

  const HISTORY_LIMIT := 200

  /** Snapshots of other assessments' COMPLETE results of the same kind, newest first. */
  function Historical(rs: seq<StageResult>, tenant: nat, hazard: HazardType, s: StageType, excluded: nat)
    : seq<Inputs>
  {
    if rs == [] then []
    else
      var last := rs[|rs| - 1];
      var rest := Historical(rs[..|rs| - 1], tenant, hazard, s, excluded);
      if last.tenant == tenant && last.hazard == hazard && last.stage == s && last.Completed()
         && last.assessment != excluded
      then [last.snapshot] + rest else rest
  }

  function Overlay(inputs: Inputs, indicators: Indicators): Inputs {
    inputs + (map code | code in indicators :: Some(indicators[code]))
  }

  function Comparison(ex: Executors, rs: seq<StageResult>, tenant: nat, hazard: HazardType, id: nat, s: StageType)
    : seq<Inputs>
  {
    if !ex.usesHistory(hazard, s) then []
    else
      var all := Historical(rs, tenant, hazard, s, id);
      if |all| <= HISTORY_LIMIT then all else all[..HISTORY_LIMIT]
  }

  /** The calculator is looked up only once the strategy is found. */
  function FormulaFor(ex: Executors, hazard: HazardType, s: StageType): Formula {
    Formula(ex.strategy(hazard), if ex.strategy(hazard).None? then None else ex.calculator(hazard, s))
  }

  /** The row the pipeline adds: COMPLETE when a calculator is registered, its inputs are there
      and it computes; FAILED otherwise. */
  function NextResult(ex: Executors, rs: seq<StageResult>, a: AssessmentState, id: nat, s: StageType): StageResult {
    var version := MaxVersion(rs, a.tenant, id, s) + 1;
    var comparison := Comparison(ex, rs, a.tenant, a.hazard, id, s);
    var formula := FormulaFor(ex, a.hazard, s);
    var failed := StageResult(a.tenant, id, a.hazard, s, version, None, map[], 0, None, formula, Some(ex.failureText(|rs|)));
    if formula.calculator.None? then failed
    else
      match Gather(ex, rs, a.tenant, a.hazard, id, s)
      case None => failed
      case Some(raw) =>
        match ex.compute(a.hazard, s, raw, comparison)
        case None => failed
        case Some(indicators) =>
          StageResult(a.tenant, id, a.hazard, s, version, Some(indicators),
                      Overlay(raw, indicators), |comparison|, Some(Confidence(|comparison| + 1)), formula, None)
  }

  function RecordResult(ex: Executors, w: World, id: nat, s: StageType): World
    requires id < |w.assessments|
  {
    var row := NextResult(ex, w.results, w.assessments[id].state, id, s);
    var event := if row.Completed() then ResultComputed(s, row.version) else ResultFailed(s, row.version);
    w.(results := w.results + [row],
       outbox := Append(w.outbox, StageResultId(|w.results|), event))
  }

  /** One call of the composite stage executor. */
  function RunExecutor(ex: Executors, w: World, id: nat, s: StageType): (World, Outcome) {
    if s !in ex.analysis then (w, ex.script(w, id, s))
    else if id >= |w.assessments| then (w, Outcome(false, None, Some("not found")))
    else
      var w' := RecordResult(ex, w, id, s);
      var row := w'.results[|w.results|];
      (w', if row.Completed() then Outcome(true, Some(ResultRow(|w.results|)), None)
           else Outcome(false, None, row.error))
  }
}
