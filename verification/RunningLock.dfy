/** The RUNNING status as a lock on the evidence of a stage: many callers, their engine calls interleaved
    command by command, cancellations in between, and calls that never come back. */
module RunningLock {
  import opened Results
  import opened Stages
  import opened Assessments
  import opened Platform
  import opened OutboxLog
  import opened Interleavings
  import opened Engine
  import opened Gathering
  import opened Evidence
  import opened Requests

  /** How far the call that started a stage has got: its result row, once there is one. */
  datatype Phase = Begun | Filed(row: nat)

  type Flights = map<(nat, StageType), Phase>

  datatype Session = Session(w: World, flights: Flights)

  /** One commit of one of the callers. */
  datatype Turn =
    | Create(tenant: nat, name: string, hazard: HazardType, actor: string)
    | Other(tenant: nat, id: nat, cmd: Command)
    | Begin(tenant: nat, id: nat, stage: StageType, actor: string)
    | Record(id: nat, stage: StageType)
    | Finish(tenant: nat, id: nat, stage: StageType, outcome: Outcome, actor: string)

  function FlightOf(flights: Flights, id: nat, s: StageType): Option<Phase> {
    if (id, s) in flights then Some(flights[(id, s)]) else None
  }

  /** How a call reports: an analysis stage by its row, any other as its executor said. */
  function Report(ex: Executors, c: Session, s: StageType, phase: Phase, outcome: Outcome, actor: string): Command {
    if s !in ex.analysis || phase.Begun? || phase.row >= |c.w.results| then
      if outcome.success then CompleteStage(s, outcome.ref, actor) else FailStage(s, ErrorText(outcome.error), actor)
    else if c.w.results[phase.row].Completed() then CompleteStage(s, Some(ResultRow(phase.row)), actor)
    else FailStage(s, ErrorText(c.w.results[phase.row].error), actor)
  }

  /** What a turn does. Only the call that began a stage records for it and finishes it, an analysis stage
      only after recording; a stage command is issued in no other way. */
  function Take(ex: Executors, c: Session, turn: Turn): Session {
    match turn
    case Create(tenant, name, hazard, actor) => c.(w := Act(ex, c.w, Creation(tenant, name, hazard, actor)))
    case Other(tenant, id, cmd) => if StageCommand(cmd) then c else c.(w := Act(ex, c.w, Issued(tenant, id, cmd)))
    case Begin(tenant, id, s, actor) =>
      (match Issue(c.w, tenant, id, StartStage(s, actor))
       case Ok(w') => Session(w', c.flights[(id, s) := Begun])
       case Err(_) => c)
    case Record(id, s) =>
      if s in ex.analysis && FlightOf(c.flights, id, s) == Some(Begun) && id < |c.w.assessments|
      then Session(RecordResult(ex, c.w, id, s), c.flights[(id, s) := Filed(|c.w.results|)])
      else c
    case Finish(tenant, id, s, outcome, actor) =>
      (match FlightOf(c.flights, id, s)
       case None => c
       case Some(phase) =>
         if s in ex.analysis && phase.Begun? then c
         else Session(Act(ex, c.w, Issued(tenant, id, Report(ex, c, s, phase, outcome, actor))), c.flights - {(id, s)}))
  }

  function TakeAll(ex: Executors, c: Session, turns: seq<Turn>): Session {
    if turns == [] then c else Take(ex, TakeAll(ex, c, turns[..|turns| - 1]), turns[|turns| - 1])
  }

  // ---- The invariant ----

  predicate LastCompleted(rows: seq<StageResult>) {
    rows != [] && rows[|rows| - 1].Completed()
  }

  /** Versions 1..n, of which only the last can be COMPLETE; one for each attempt, the one in flight excepted
      until its row is there. A stage that can be started has no COMPLETE row; a COMPLETE one has, and names
      the one that is read as latest. */
  predicate Locked(rs: seq<StageResult>, tenant: nat, id: nat, e: StageEntry, flight: Option<Phase>) {
    var rows := RowsFor(rs, tenant, id, e.stageType);
    && Versioned(rows)
    && |rows| + (if flight == Some(Begun) then 1 else 0) == e.attempts
    && (forall i :: 0 <= i < |rows| - 1 ==> !rows[i].Completed())
    && (flight.Some? ==> e.status == StageStatus.Running)
    && (flight == Some(Begun) || Startable(e.status) ==> !LastCompleted(rows))
    && (e.status == StageStatus.Complete ==> LastCompleted(rows))
    && (flight.Some? && flight.value.Filed? ==>
          flight.value.row < |rs| && rows != [] && rs[flight.value.row] == rows[|rows| - 1])
    && NamesLatest(rs, tenant, id, e, flight)
  }

  /** The row read as latest, if there is one, is the last, is the one the call in flight filed, and is the
      one a COMPLETE entry names. */
  predicate NamesLatest(rs: seq<StageResult>, tenant: nat, id: nat, e: StageEntry, flight: Option<Phase>) {
    var rows := RowsFor(rs, tenant, id, e.stageType);
    match Latest(rs, tenant, id, e.stageType)
    case None => !LastCompleted(rows)
    case Some(k) =>
      && LastCompleted(rows) && rs[k] == rows[|rows| - 1]
      && (flight.Some? && flight.value.Filed? ==> flight.value.row == k)
      && (e.status == StageStatus.Complete ==> e.resultRef == Some(ResultRow(k)))
  }

  ghost predicate AllLocked(ex: Executors, c: Session) {
    && (forall id, s {:trigger FlightOf(c.flights, id, s)} | 0 <= id < |c.w.assessments| && s in ex.analysis ::
          Locked(c.w.results, c.w.assessments[id].state.tenant, id, ProgressOf(c.w, id).Get(s), FlightOf(c.flights, id, s)))
    && (forall id, s {:trigger FlightOf(c.flights, id, s)} | |c.w.assessments| <= id :: FlightOf(c.flights, id, s) == None)
    && (forall k :: 0 <= k < |c.w.results| ==> c.w.results[k].assessment < |c.w.assessments|)
  }

  ghost predicate Safe(ex: Executors, c: Session) {
    Consistent(c.w) && AllLocked(ex, c) && AllFresh(ex, c.w.results)
  }

  // ---- Entries ----

  lemma BegunLocked(rs: seq<StageResult>, tenant: nat, id: nat, e: StageEntry, e': StageEntry)
    requires Locked(rs, tenant, id, e, None) && Startable(e.status)
    requires e'.stageType == e.stageType && e'.attempts == e.attempts + 1 && e'.status == StageStatus.Running
    ensures Locked(rs, tenant, id, e', Some(Begun))
  {}

  lemma RecordedRows(rs: seq<StageResult>, row: StageResult, tenant: nat, id: nat, s: StageType)
    requires Versioned(RowsFor(rs, tenant, id, s))
    requires row.Of(tenant, id, s) && row.version == MaxVersion(rs, tenant, id, s) + 1
    ensures RowsFor(rs + [row], tenant, id, s) == RowsFor(rs, tenant, id, s) + [row]
    ensures row.version == |RowsFor(rs, tenant, id, s)| + 1
  {
    RowAppended(rs, row, tenant, id, s);
    MaxVersionIsCount(rs, tenant, id, s);
  }

  lemma NoneComplete(rows: seq<StageResult>)
    requires (forall i :: 0 <= i < |rows| - 1 ==> !rows[i].Completed()) && !LastCompleted(rows)
    ensures forall i :: 0 <= i < |rows| ==> !rows[i].Completed()
  {}

  lemma RecordedNames(rs: seq<StageResult>, row: StageResult, tenant: nat, id: nat, e: StageEntry)
    requires NamesLatest(rs, tenant, id, e, Some(Begun)) && !LastCompleted(RowsFor(rs, tenant, id, e.stageType))
    requires row.Of(tenant, id, e.stageType) && e.status == StageStatus.Running
    requires RowsFor(rs + [row], tenant, id, e.stageType) == RowsFor(rs, tenant, id, e.stageType) + [row]
    ensures NamesLatest(rs + [row], tenant, id, e, Some(Filed(|rs|)))
  {
    RowAppended(rs, row, tenant, id, e.stageType);
  }

  lemma RecordedLocked(rs: seq<StageResult>, row: StageResult, tenant: nat, id: nat, e: StageEntry)
    requires Locked(rs, tenant, id, e, Some(Begun))
    requires row.Of(tenant, id, e.stageType) && row.version == MaxVersion(rs, tenant, id, e.stageType) + 1
    ensures Locked(rs + [row], tenant, id, e, Some(Filed(|rs|)))
  {
    var rows := RowsFor(rs, tenant, id, e.stageType);
    RecordedRows(rs, row, tenant, id, e.stageType);
    NoneComplete(rows);
    RowsExtended(rows, row, row.Completed());
    RecordedNames(rs, row, tenant, id, e);
  }

  lemma OtherLocked(rs: seq<StageResult>, row: StageResult, tenant: nat, id: nat, e: StageEntry, flight: Option<Phase>)
    requires Locked(rs, tenant, id, e, flight) && !row.Of(tenant, id, e.stageType)
    ensures Locked(rs + [row], tenant, id, e, flight)
  {
    RowAppended(rs, row, tenant, id, e.stageType);
    assert RowsFor(rs + [row], tenant, id, e.stageType) == RowsFor(rs, tenant, id, e.stageType);
  }

  /** A call that reports, or is refused, lets go of the stage. */
  lemma FinishedLocked(rs: seq<StageResult>, tenant: nat, id: nat, e: StageEntry, e': StageEntry, k: nat)
    requires Locked(rs, tenant, id, e, Some(Filed(k)))
    requires e' == e || (e'.stageType == e.stageType && e'.attempts == e.attempts
                         && e'.status == (if rs[k].Completed() then StageStatus.Complete else StageStatus.Failed)
                         && (rs[k].Completed() ==> e'.resultRef == Some(ResultRow(k))))
    ensures Locked(rs, tenant, id, e', None)
  {}

  lemma {:induction false} UntouchedLocked(rs: seq<StageResult>, tenant: nat, id: nat, s: StageType)
    requires forall k :: 0 <= k < |rs| ==> rs[k].assessment != id
    ensures Locked(rs, tenant, id, FreshEntry(s), None)
  {
    NoRows(rs, tenant, id, s);
  }

  // ---- Turns ----

  lemma SameEntriesSafe(ex: Executors, c: Session, w': World)
    requires Safe(ex, c) && Consistent(w') && w'.results == c.w.results && |w'.assessments| == |c.w.assessments|
    requires forall k :: 0 <= k < |w'.assessments| ==> w'.assessments[k].state.tenant == c.w.assessments[k].state.tenant
    requires forall k, s :: 0 <= k < |w'.assessments| ==> ProgressOf(w', k).Get(s) == ProgressOf(c.w, k).Get(s)
    ensures Safe(ex, c.(w := w'))
  {}

  lemma CreateLocks(ex: Executors, c: Session, w': World, added: Stored)
    requires AllLocked(ex, c) && w'.results == c.w.results && w'.assessments == c.w.assessments + [added]
    requires added.state.progress == NO_PROGRESS
    ensures AllLocked(ex, c.(w := w'))
  {
    var n := |c.w.assessments|;
    forall k, s {:trigger FlightOf(c.flights, k, s)} | 0 <= k < |w'.assessments| && s in ex.analysis
      ensures Locked(w'.results, w'.assessments[k].state.tenant, k, ProgressOf(w', k).Get(s), FlightOf(c.flights, k, s))
    {
      if k == n { UntouchedLocked(w'.results, added.state.tenant, n, s); }
      else { LockedAt(ex, c, k, s); }
    }
  }

  lemma CreateSafe(ex: Executors, c: Session, tenant: nat, name: string, hazard: HazardType, actor: string)
    requires Safe(ex, c) && CreateAssessment(c.w, tenant, name, hazard, actor).Ok?
    ensures Safe(ex, c.(w := CreateAssessment(c.w, tenant, name, hazard, actor).value))
  {
    CreateConsistent(c.w, tenant, name, hazard, actor);
    CreateLocks(ex, c, CreateAssessment(c.w, tenant, name, hazard, actor).value, Stored(NewState(tenant, name, hazard, actor), 0));
  }

  lemma OtherSafe(ex: Executors, c: Session, tenant: nat, id: nat, cmd: Command)
    requires Safe(ex, c) && !StageCommand(cmd) && Issue(c.w, tenant, id, cmd).Ok?
    ensures Safe(ex, c.(w := Issue(c.w, tenant, id, cmd).value))
  {
    IssueActs(c.w, tenant, id, cmd);
    OtherEntries(c.w, tenant, id, cmd);
    SameTenants(c.w, tenant, id, cmd);
    SameEntriesSafe(ex, c, Issue(c.w, tenant, id, cmd).value);
  }

  lemma OtherEntries(w: World, tenant: nat, id: nat, cmd: Command)
    requires Consistent(w) && !StageCommand(cmd) && Issue(w, tenant, id, cmd).Ok?
    ensures var w' := Issue(w, tenant, id, cmd).value;
      forall k, s :: 0 <= k < |w'.assessments| ==> ProgressOf(w', k).Get(s) == ProgressOf(w, k).Get(s)
  {
    PlainKeepsEntries(HistoryOf(w.outbox, AssessmentId(id)), w.assessments[id].state, cmd);
    SameTenants(w, tenant, id, cmd);
  }

  lemma SameTenants(w: World, tenant: nat, id: nat, cmd: Command)
    requires Issue(w, tenant, id, cmd).Ok?
    ensures var w' := Issue(w, tenant, id, cmd).value;
      && |w'.assessments| == |w.assessments| && w'.results == w.results
      && (forall k :: 0 <= k < |w.assessments| ==> w'.assessments[k].state.tenant == w.assessments[k].state.tenant)
      && (forall k :: 0 <= k < |w.assessments| && k != id ==> w'.assessments[k] == w.assessments[k])
  {}

  lemma BeginLocks(ex: Executors, c: Session, w': World, id: nat, e: StageEntry)
    requires AllLocked(ex, c) && EntrySet(c.w, w', id, e) && w'.results == c.w.results
    requires Startable(ProgressOf(c.w, id).Status(e.stageType)) && e.status == StageStatus.Running
    requires e.attempts == ProgressOf(c.w, id).Get(e.stageType).attempts + 1
    ensures AllLocked(ex, Session(w', c.flights[(id, e.stageType) := Begun]))
  {
    var c' := Session(w', c.flights[(id, e.stageType) := Begun]);
    forall k, t {:trigger FlightOf(c'.flights, k, t)} | 0 <= k < |w'.assessments| && t in ex.analysis
      ensures Locked(w'.results, w'.assessments[k].state.tenant, k, ProgressOf(w', k).Get(t), FlightOf(c'.flights, k, t))
    {
      LockedAt(ex, c, k, t);
      if k == id && t == e.stageType {
        BegunLocked(c.w.results, c.w.assessments[id].state.tenant, id, ProgressOf(c.w, id).Get(t), e);
      } else {
        assert FlightOf(c'.flights, k, t) == FlightOf(c.flights, k, t);
      }
    }
    forall k, t {:trigger FlightOf(c'.flights, k, t)} | |w'.assessments| <= k ensures FlightOf(c'.flights, k, t) == None {
      assert FlightOf(c.flights, k, t) == None;
    }
  }

  lemma BeginSafe(ex: Executors, c: Session, tenant: nat, id: nat, s: StageType, actor: string)
    requires Safe(ex, c) && Issue(c.w, tenant, id, StartStage(s, actor)).Ok?
    ensures Safe(ex, Session(Issue(c.w, tenant, id, StartStage(s, actor)).value, c.flights[(id, s) := Begun]))
  {
    var w' := Issue(c.w, tenant, id, StartStage(s, actor)).value;
    IssueActs(c.w, tenant, id, StartStage(s, actor));
    StartEffect(c.w, tenant, id, s, actor);
    var e := ProgressOf(c.w, id).Get(s);
    BeginLocks(ex, c, w', id, e.(status := StageStatus.Running, attempts := e.attempts + 1, lastError := None));
  }

  lemma LockedAt(ex: Executors, c: Session, k: nat, t: StageType)
    requires AllLocked(ex, c) && k < |c.w.assessments| && t in ex.analysis
    ensures Locked(c.w.results, c.w.assessments[k].state.tenant, k, ProgressOf(c.w, k).Get(t), FlightOf(c.flights, k, t))
    ensures !(ProgressOf(c.w, k).Status(t) == StageStatus.Running) ==> FlightOf(c.flights, k, t) == None
  {}

  lemma RecordShapes(ex: Executors, c: Session, id: nat, s: StageType) returns (row: StageResult, a: AssessmentState)
    requires id < |c.w.assessments|
    ensures a == c.w.assessments[id].state && row == NextResult(ex, c.w.results, a, id, s)
    ensures row.Of(a.tenant, id, s) && row.assessment == id && row.version == MaxVersion(c.w.results, a.tenant, id, s) + 1
    ensures var w' := RecordResult(ex, c.w, id, s); w'.results == c.w.results + [row] && w'.assessments == c.w.assessments
  {
    a := c.w.assessments[id].state;
    row := NextResult(ex, c.w.results, a, id, s);
  }

  lemma RecordLocks(ex: Executors, c: Session, id: nat, s: StageType)
    requires AllLocked(ex, c) && s in ex.analysis && FlightOf(c.flights, id, s) == Some(Begun) && id < |c.w.assessments|
    ensures AllLocked(ex, Session(RecordResult(ex, c.w, id, s), c.flights[(id, s) := Filed(|c.w.results|)]))
  {
    var row, a := RecordShapes(ex, c, id, s);
    var c' := Session(RecordResult(ex, c.w, id, s), c.flights[(id, s) := Filed(|c.w.results|)]);
    LockedAt(ex, c, id, s);
    forall k, t {:trigger FlightOf(c'.flights, k, t)} | 0 <= k < |c'.w.assessments| && t in ex.analysis
      ensures Locked(c'.w.results, c'.w.assessments[k].state.tenant, k, ProgressOf(c'.w, k).Get(t), FlightOf(c'.flights, k, t))
    {
      LockedAt(ex, c, k, t);
      if k == id && t == s {
        RecordedLocked(c.w.results, row, a.tenant, id, ProgressOf(c.w, id).Get(s));
      } else {
        assert FlightOf(c'.flights, k, t) == FlightOf(c.flights, k, t);
        OtherLocked(c.w.results, row, c.w.assessments[k].state.tenant, k, ProgressOf(c.w, k).Get(t), FlightOf(c.flights, k, t));
      }
    }
    forall k, t {:trigger FlightOf(c'.flights, k, t)} | |c'.w.assessments| <= k ensures FlightOf(c'.flights, k, t) == None {
      assert FlightOf(c.flights, k, t) == None;
    }
  }

  lemma RecordSafe(ex: Executors, c: Session, id: nat, s: StageType)
    requires Safe(ex, c) && s in ex.analysis && FlightOf(c.flights, id, s) == Some(Begun) && id < |c.w.assessments|
    ensures Safe(ex, Session(RecordResult(ex, c.w, id, s), c.flights[(id, s) := Filed(|c.w.results|)]))
    ensures Preserves(ex, c.w.results, RecordResult(ex, c.w, id, s).results)
  {
    RecordConsistent(ex, c.w, id, s);
    RecordLocks(ex, c, id, s);
    RecordFresh(ex, c, id, s);
  }

  lemma RecordFresh(ex: Executors, c: Session, id: nat, s: StageType)
    requires AllLocked(ex, c) && AllFresh(ex, c.w.results) && s in ex.analysis
    requires FlightOf(c.flights, id, s) == Some(Begun) && id < |c.w.assessments|
    ensures var rs' := RecordResult(ex, c.w, id, s).results; AllFresh(ex, rs') && Preserves(ex, c.w.results, rs')
  {
    var row, a := RecordShapes(ex, c, id, s);
    LockedAt(ex, c, id, s);
    AppendKeepsFresh(ex, c.w.results, a, id, s);
  }

  predicate Outcomes(cmd: Command, s: StageType) {
    (cmd.CompleteStage? && cmd.stage == s) || (cmd.FailStage? && cmd.stage == s)
  }

  /** A stage's outcome, if it is accepted, changes the entry of that stage only. */
  lemma OutcomeSets(w: World, tenant: nat, id: nat, s: StageType, cmd: Command)
    requires Outcomes(cmd, s) && Issue(w, tenant, id, cmd).Ok?
    ensures var w' := Issue(w, tenant, id, cmd).value;
      var e, e' := ProgressOf(w, id).Get(s), ProgressOf(w', id).Get(s);
      && EntrySet(w, w', id, e') && w'.results == w.results
      && e.status == StageStatus.Running && e'.attempts == e.attempts
      && e'.status == (if cmd.CompleteStage? then StageStatus.Complete else StageStatus.Failed)
      && (cmd.CompleteStage? ==> e'.resultRef == cmd.ref)
  {
    if cmd.CompleteStage? { CompleteEffect(w, tenant, id, s, cmd.ref, cmd.actor); }
    else { FailEffect(w, tenant, id, s, cmd.error, cmd.actor); }
  }

  /** All entries but one, and all owners, are as before. */
  predicate OneEntry(w: World, w': World, id: nat, s: StageType) {
    && w'.results == w.results && |w'.assessments| == |w.assessments|
    && (forall k :: 0 <= k < |w'.assessments| ==> w'.assessments[k].state.tenant == w.assessments[k].state.tenant)
    && (forall k, t :: 0 <= k < |w'.assessments| && !(k == id && t == s) ==> ProgressOf(w', k).Get(t) == ProgressOf(w, k).Get(t))
  }

  lemma SetOneEntry(w: World, w': World, id: nat, e: StageEntry)
    requires EntrySet(w, w', id, e) && w'.results == w.results
    ensures OneEntry(w, w', id, e.stageType)
  {}

  /** What the report of a call can do to the entries. */
  lemma ReportEffect(ex: Executors, c: Session, tenant: nat, id: nat, s: StageType, phase: Phase, outcome: Outcome, actor: string)
    ensures var cmd := Report(ex, c, s, phase, outcome, actor);
      var w' := Act(ex, c.w, Issued(tenant, id, cmd));
      var e, e' := ProgressOf(c.w, id).Get(s), ProgressOf(w', id).Get(s);
      && OneEntry(c.w, w', id, s) && Outcomes(cmd, s)
      && (e' == e || (e.status == StageStatus.Running && e'.attempts == e.attempts
                      && e'.status == (if cmd.CompleteStage? then StageStatus.Complete else StageStatus.Failed)
                      && (cmd.CompleteStage? ==> e'.resultRef == cmd.ref)))
  {
    var cmd := Report(ex, c, s, phase, outcome, actor);
    if Issue(c.w, tenant, id, cmd).Ok? {
      OutcomeSets(c.w, tenant, id, s, cmd);
      var w' := Issue(c.w, tenant, id, cmd).value;
      SetOneEntry(c.w, w', id, ProgressOf(w', id).Get(s));
    }
  }

  lemma FinishSafe(ex: Executors, c: Session, tenant: nat, id: nat, s: StageType, phase: Phase, outcome: Outcome, actor: string)
    requires Safe(ex, c) && FlightOf(c.flights, id, s) == Some(phase) && (s in ex.analysis ==> phase.Filed?)
    ensures var w' := Act(ex, c.w, Issued(tenant, id, Report(ex, c, s, phase, outcome, actor)));
      Safe(ex, Session(w', c.flights - {(id, s)})) && w'.results == c.w.results
  {
    var cmd := Report(ex, c, s, phase, outcome, actor);
    ActKeeps(ex, c.w, Issued(tenant, id, cmd));
    ReportEffect(ex, c, tenant, id, s, phase, outcome, actor);
    if id < |c.w.assessments| && s in ex.analysis { OwnFinished(ex, c, tenant, id, s, phase, outcome, actor); }
    LetGo(ex, c, Act(ex, c.w, Issued(tenant, id, cmd)), id, s);
  }

  /** Without its flight, and with that entry as it should be, everything is locked as before. */
  lemma LetGo(ex: Executors, c: Session, w': World, id: nat, s: StageType)
    requires AllLocked(ex, c) && OneEntry(c.w, w', id, s)
    requires id < |w'.assessments| && s in ex.analysis ==>
      Locked(w'.results, w'.assessments[id].state.tenant, id, ProgressOf(w', id).Get(s), None)
    ensures AllLocked(ex, Session(w', c.flights - {(id, s)}))
  {
    var c' := Session(w', c.flights - {(id, s)});
    forall k, t {:trigger FlightOf(c'.flights, k, t)} | 0 <= k < |w'.assessments| && t in ex.analysis
      ensures Locked(w'.results, w'.assessments[k].state.tenant, k, ProgressOf(w', k).Get(t), FlightOf(c'.flights, k, t))
    {
      LockedAt(ex, c, k, t);
      if !(k == id && t == s) { assert FlightOf(c'.flights, k, t) == FlightOf(c.flights, k, t); }
    }
    forall k, t {:trigger FlightOf(c'.flights, k, t)} | |w'.assessments| <= k ensures FlightOf(c'.flights, k, t) == None {
      assert FlightOf(c.flights, k, t) == None;
    }
  }

  lemma OwnFinished(ex: Executors, c: Session, tenant: nat, id: nat, s: StageType, phase: Phase, outcome: Outcome, actor: string)
    requires AllLocked(ex, c) && id < |c.w.assessments| && s in ex.analysis
    requires FlightOf(c.flights, id, s) == Some(phase) && phase.Filed?
    ensures var w' := Act(ex, c.w, Issued(tenant, id, Report(ex, c, s, phase, outcome, actor)));
      Locked(c.w.results, c.w.assessments[id].state.tenant, id, ProgressOf(w', id).Get(s), None)
  {
    LockedAt(ex, c, id, s);
    ReportEffect(ex, c, tenant, id, s, phase, outcome, actor);
    var w' := Act(ex, c.w, Issued(tenant, id, Report(ex, c, s, phase, outcome, actor)));
    FinishedLocked(c.w.results, c.w.assessments[id].state.tenant, id, ProgressOf(c.w, id).Get(s), ProgressOf(w', id).Get(s), phase.row);
  }

  lemma FinishTurnSafe(ex: Executors, c: Session, tenant: nat, id: nat, s: StageType, outcome: Outcome, actor: string)
    requires Safe(ex, c)
    ensures var c' := Take(ex, c, Finish(tenant, id, s, outcome, actor));
      Safe(ex, c') && Preserves(ex, c.w.results, c'.w.results)
  {
    var flight := FlightOf(c.flights, id, s);
    if flight.None? || (s in ex.analysis && flight == Some(Begun)) {
      assert Take(ex, c, Finish(tenant, id, s, outcome, actor)) == c;
    } else {
      FinishSafe(ex, c, tenant, id, s, flight.value, outcome, actor);
    }
  }

  lemma TakeSafe(ex: Executors, c: Session, turn: Turn)
    requires Safe(ex, c)
    ensures Safe(ex, Take(ex, c, turn)) && Preserves(ex, c.w.results, Take(ex, c, turn).w.results)
  {
    match turn
    case Create(tenant, name, hazard, actor) =>
      if CreateAssessment(c.w, tenant, name, hazard, actor).Ok? { CreateSafe(ex, c, tenant, name, hazard, actor); }
    case Other(tenant, id, cmd) =>
      if !StageCommand(cmd) && Issue(c.w, tenant, id, cmd).Ok? { OtherSafe(ex, c, tenant, id, cmd); }
    case Begin(tenant, id, s, actor) =>
      if Issue(c.w, tenant, id, StartStage(s, actor)).Ok? { BeginSafe(ex, c, tenant, id, s, actor); }
    case Record(id, s) =>
      if s in ex.analysis && FlightOf(c.flights, id, s) == Some(Begun) && id < |c.w.assessments| { RecordSafe(ex, c, id, s); }
    case Finish(tenant, id, s, outcome, actor) => FinishTurnSafe(ex, c, tenant, id, s, outcome, actor);
  }

  lemma PreservesJoins(ex: Executors, rs: seq<StageResult>, rs': seq<StageResult>, rs'': seq<StageResult>)
    requires Preserves(ex, rs, rs') && Preserves(ex, rs', rs'')
    ensures Preserves(ex, rs, rs'')
  {
    forall k | 0 <= k < |rs| && rs[k].Completed() && ex.dependencies(rs[k].hazard, rs[k].stage) != []
      ensures CollectFor(ex, rs'', rs[k]) == CollectFor(ex, rs, rs[k])
    {
      assert rs'[k] == rs[k];
    }
  }

  lemma {:induction false} AllTurnsSafe(ex: Executors, c: Session, turns: seq<Turn>)
    requires Safe(ex, c)
    ensures Safe(ex, TakeAll(ex, c, turns)) && Preserves(ex, c.w.results, TakeAll(ex, c, turns).w.results)
  {
    if turns != [] {
      var front := TakeAll(ex, c, turns[..|turns| - 1]);
      AllTurnsSafe(ex, c, turns[..|turns| - 1]);
      TakeSafe(ex, front, turns[|turns| - 1]);
      PreservesJoins(ex, c.w.results, front.w.results, TakeAll(ex, c, turns).w.results);
    }
  }

  function Opening(templates: seq<Template>): Session {
    Session(Empty(templates), map[])
  }

  lemma EmptySafe(ex: Executors, templates: seq<Template>)
    ensures Safe(ex, Opening(templates))
  {
    EmptyConsistent(templates);
  }

  /** At every moment of every interleaving: an analysis stage that is not RUNNING has exactly one result
      version per attempt; only the last can be COMPLETE, and it is exactly when the stage is, whose entry
      then names it, as the row read as latest. */
  lemma LockHolds(ex: Executors, templates: seq<Template>, turns: seq<Turn>, id: nat, s: StageType)
    requires s in ex.analysis
    requires var w := TakeAll(ex, Opening(templates), turns).w;
      id < |w.assessments| && ProgressOf(w, id).Status(s) != StageStatus.Running
    ensures var w := TakeAll(ex, Opening(templates), turns).w;
      LedgerMatches(w.results, w.assessments[id].state.tenant, id, ProgressOf(w, id).Get(s))
  {
    EmptySafe(ex, templates);
    AllTurnsSafe(ex, Opening(templates), turns);
    var c := TakeAll(ex, Opening(templates), turns);
    LockedAt(ex, c, id, s);
    UnlockedMatches(c.w.results, c.w.assessments[id].state.tenant, id, ProgressOf(c.w, id).Get(s));
  }

  lemma UnlockedMatches(rs: seq<StageResult>, tenant: nat, id: nat, e: StageEntry)
    requires Locked(rs, tenant, id, e, None) && e.status != StageStatus.Running
    ensures LedgerMatches(rs, tenant, id, e)
  {}

  /** And the inputs of a COMPLETE result with dependencies read the same from then on, whoever runs what. */
  lemma LockKeepsFresh(ex: Executors, templates: seq<Template>, before: seq<Turn>, after: seq<Turn>, k: nat)
    requires var rs := TakeAll(ex, Opening(templates), before).w.results;
      k < |rs| && rs[k].Completed() && ex.dependencies(rs[k].hazard, rs[k].stage) != []
    ensures var c := TakeAll(ex, Opening(templates), before);
      var rs, rs' := c.w.results, TakeAll(ex, c, after).w.results;
      && k < |rs'| && rs'[k] == rs[k]
      && CollectFor(ex, rs, rs[k]).Some? && CollectFor(ex, rs', rs[k]) == CollectFor(ex, rs, rs[k])
      && (exists seen :: ComputedFrom(ex, rs[..k], rs[k], CollectFor(ex, rs, rs[k]).value, seen))
  {
    EmptySafe(ex, templates);
    AllTurnsSafe(ex, Opening(templates), before);
    AllTurnsSafe(ex, TakeAll(ex, Opening(templates), before), after);
    var rs := TakeAll(ex, Opening(templates), before).w.results;
    assert Fresh(ex, rs, k);
    var seen := FreshInputs(ex, rs, k);
  }

  /** Whoever runs what, every row is what the ledger before it made it. */
  lemma LockExplains(ex: Executors, templates: seq<Template>, turns: seq<Turn>, k: nat)
    requires k < |TakeAll(ex, Opening(templates), turns).w.results|
    ensures var rs := TakeAll(ex, Opening(templates), turns).w.results; Explained(ex, rs[..k], rs[k])
  {
    EmptySafe(ex, templates);
    AllTurnsSafe(ex, Opening(templates), turns);
    assert Fresh(ex, TakeAll(ex, Opening(templates), turns).w.results, k);
  }
}
