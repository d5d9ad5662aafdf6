/** The outbox against the rows it describes: per-aggregate numbering without gaps, and
    for every assessment a log that rebuilds it. */
module OutboxLog {
  import opened Stages
  import opened Assessments
  import opened Replay
  import opened Platform

  function HistoryOf(outbox: seq<OutboxRow>, of: Aggregate): (h: History)
    ensures |h| == |RowsOf(outbox, of)|
  {
    if outbox == [] then []
    else
      var row := outbox[|outbox| - 1];
      HistoryOf(outbox[..|outbox| - 1], of) + (if row.aggregate == of then [row.event] else [])
  }

  /** Sequence numbers 1, 2, ..., n in commit order. */
  predicate Numbered(rows: seq<OutboxRow>) {
    forall i :: 0 <= i < |rows| ==> rows[i].sequence == i + 1
  }

  lemma AppendEffect(outbox: seq<OutboxRow>, of: Aggregate, e: Event, other: Aggregate)
    requires Numbered(RowsOf(outbox, other))
    ensures var after := Append(outbox, of, e);
      && Numbered(RowsOf(after, other))
      && HistoryOf(after, other) == (if other == of then HistoryOf(outbox, other) + [e] else HistoryOf(outbox, other))
  {
    var after := Append(outbox, of, e);
    assert after[..|outbox|] == outbox;
    if other == of { MaxIsCount(outbox, of); }
  }

  lemma {:induction false} MaxIsCount(outbox: seq<OutboxRow>, of: Aggregate)
    requires Numbered(RowsOf(outbox, of))
    ensures MaxSequence(outbox, of) == |RowsOf(outbox, of)|
  {
    if outbox != [] {
      var rows := RowsOf(outbox, of);
      var before := RowsOf(outbox[..|outbox| - 1], of);
      assert before == rows[..|before|];
      MaxIsCount(outbox[..|outbox| - 1], of);
      assert outbox[|outbox| - 1].aggregate == of ==> rows[|rows| - 1] == outbox[|outbox| - 1];
    }
  }

  lemma SplitLast<T>(before: seq<T>, added: seq<T>)
    requires added != []
    ensures before + added == before + added[..|added| - 1] + [added[|added| - 1]]
  {}

  lemma {:induction false} AppendAllEffect(outbox: seq<OutboxRow>, of: Aggregate, events: seq<Event>, other: Aggregate)
    requires Numbered(RowsOf(outbox, other))
    ensures var after := AppendAll(outbox, of, events);
      && Numbered(RowsOf(after, other))
      && HistoryOf(after, other) == (if other == of then HistoryOf(outbox, other) + events else HistoryOf(outbox, other))
  {
    if events == [] {
      assert HistoryOf(outbox, other) + events == HistoryOf(outbox, other);
    } else {
      var n := |events| - 1;
      AppendAllEffect(outbox, of, events[..n], other);
      AppendEffect(AppendAll(outbox, of, events[..n]), of, events[n], other);
      SplitLast(HistoryOf(outbox, other), events);
    }
  }

  lemma {:induction false} AppendAllExtends(outbox: seq<OutboxRow>, of: Aggregate, events: seq<Event>)
    ensures var after := AppendAll(outbox, of, events);
      && |after| == |outbox| + |events| && outbox <= after
      && (forall i :: |outbox| <= i < |after| ==> after[i].aggregate == of && after[i].event == events[i - |outbox|])
  {
    if events != [] {
      AppendAllExtends(outbox, of, events[..|events| - 1]);
    }
  }

  /** Each row of the ledger has its own history: the one event that says its outcome. */
  ghost predicate ResultsLogged(w: World) {
    && (forall k {:trigger StageResultId(k)} | 0 <= k < |w.results| ::
          HistoryOf(w.outbox, StageResultId(k)) ==
            [if w.results[k].indicators.Some? then ResultComputed(w.results[k].stage, w.results[k].version)
             else ResultFailed(w.results[k].stage, w.results[k].version)])
    && (forall k {:trigger StageResultId(k)} | |w.results| <= k :: HistoryOf(w.outbox, StageResultId(k)) == [])
  }

  lemma OthersResultsLogged(w: World, w': World)
    requires ResultsLogged(w) && w'.results == w.results
    requires forall k: nat {:trigger StageResultId(k)} :: HistoryOf(w'.outbox, StageResultId(k)) == HistoryOf(w.outbox, StageResultId(k))
    ensures ResultsLogged(w')
  {}

  /** The stored world and its log agree. */
  ghost predicate Consistent(w: World) {
    && ResultsLogged(w)
    && (forall of :: Numbered(RowsOf(w.outbox, of)))
    && (forall id {:trigger AssessmentId(id)} | 0 <= id < |w.assessments| ::
          Faithful(HistoryOf(w.outbox, AssessmentId(id)), w.assessments[id].state))
    && (forall id {:trigger AssessmentId(id)} | |w.assessments| <= id :: HistoryOf(w.outbox, AssessmentId(id)) == [])
  }

  lemma EmptyConsistent(templates: seq<Template>)
    ensures Consistent(World([], templates, [], []))
  {}

  lemma IssueConsistent(w: World, tenant: nat, id: nat, cmd: Command)
    requires Consistent(w) && Issue(w, tenant, id, cmd).Ok?
    ensures Consistent(Issue(w, tenant, id, cmd).value)
  {
    var w' := Issue(w, tenant, id, cmd).value;
    var a := w.assessments[id].state;
    var events := a.Apply(cmd).value.events;
    forall of ensures Numbered(RowsOf(w'.outbox, of)) {
      AppendAllEffect(w.outbox, AssessmentId(id), events, of);
    }
    forall k: nat {:trigger AssessmentId(k)}
      ensures k < |w'.assessments| ==> Faithful(HistoryOf(w'.outbox, AssessmentId(k)), w'.assessments[k].state)
      ensures |w'.assessments| <= k ==> HistoryOf(w'.outbox, AssessmentId(k)) == []
    {
      AppendAllEffect(w.outbox, AssessmentId(id), events, AssessmentId(k));
      if k == id { CommandKeepsFaithful(HistoryOf(w.outbox, AssessmentId(id)), a, cmd); }
    }
    forall k: nat {:trigger StageResultId(k)} ensures HistoryOf(w'.outbox, StageResultId(k)) == HistoryOf(w.outbox, StageResultId(k)) {
      AppendAllEffect(w.outbox, AssessmentId(id), events, StageResultId(k));
    }
    OthersResultsLogged(w, w');
  }

  lemma CreateConsistent(w: World, tenant: nat, name: string, hazard: HazardType, actor: string)
    requires Consistent(w) && CreateAssessment(w, tenant, name, hazard, actor).Ok?
    ensures Consistent(CreateAssessment(w, tenant, name, hazard, actor).value)
  {
    var w' := CreateAssessment(w, tenant, name, hazard, actor).value;
    var n := |w.assessments|;
    var e := Created(tenant, hazard, name, actor);
    forall of ensures Numbered(RowsOf(w'.outbox, of)) {
      AppendEffect(w.outbox, AssessmentId(n), e, of);
    }
    forall k: nat {:trigger AssessmentId(k)}
      ensures k < |w'.assessments| ==> Faithful(HistoryOf(w'.outbox, AssessmentId(k)), w'.assessments[k].state)
      ensures |w'.assessments| <= k ==> HistoryOf(w'.outbox, AssessmentId(k)) == []
    {
      AppendEffect(w.outbox, AssessmentId(n), e, AssessmentId(k));
      if k == n {
        CreationFaithful(tenant, name, hazard, actor);
        assert HistoryOf(w.outbox, AssessmentId(n)) + [e] == [e];
      }
    }
    forall k: nat {:trigger StageResultId(k)} ensures HistoryOf(w'.outbox, StageResultId(k)) == HistoryOf(w.outbox, StageResultId(k)) {
      AppendEffect(w.outbox, AssessmentId(n), e, StageResultId(k));
    }
    OthersResultsLogged(w, w');
  }

  lemma RecordConsistent(ex: Executors, w: World, id: nat, s: StageType)
    requires Consistent(w) && id < |w.assessments|
    ensures Consistent(RecordResult(ex, w, id, s))
  {
    var w' := RecordResult(ex, w, id, s);
    var e := w'.outbox[|w.outbox|].event;
    forall of ensures Numbered(RowsOf(w'.outbox, of)) {
      AppendEffect(w.outbox, StageResultId(|w.results|), e, of);
    }
    forall k: nat {:trigger AssessmentId(k)}
      ensures HistoryOf(w'.outbox, AssessmentId(k)) == HistoryOf(w.outbox, AssessmentId(k))
    {
      AppendEffect(w.outbox, StageResultId(|w.results|), e, AssessmentId(k));
    }
    RecordLogged(ex, w, id, s);
  }

  function OutcomeEvent(row: StageResult): Event {
    if row.indicators.Some? then ResultComputed(row.stage, row.version) else ResultFailed(row.stage, row.version)
  }

  lemma RecordShape(ex: Executors, w: World, id: nat, s: StageType)
    requires id < |w.assessments|
    ensures var w' := RecordResult(ex, w, id, s);
      var row := NextResult(ex, w.results, w.assessments[id].state, id, s);
      w'.results == w.results + [row] && w'.outbox == Append(w.outbox, StageResultId(|w.results|), OutcomeEvent(row))
  {}

  lemma RecordLogged(ex: Executors, w: World, id: nat, s: StageType)
    requires (forall of :: Numbered(RowsOf(w.outbox, of))) && ResultsLogged(w) && id < |w.assessments|
    ensures ResultsLogged(RecordResult(ex, w, id, s))
  {
    RecordShape(ex, w, id, s);
    RowLogged(w, RecordResult(ex, w, id, s), NextResult(ex, w.results, w.assessments[id].state, id, s));
  }

  lemma RowLogged(w: World, w': World, row: StageResult)
    requires (forall of :: Numbered(RowsOf(w.outbox, of))) && ResultsLogged(w)
    requires w'.results == w.results + [row] && w'.outbox == Append(w.outbox, StageResultId(|w.results|), OutcomeEvent(row))
    ensures ResultsLogged(w')
  {
    var n := |w.results|;
    forall k: nat {:trigger StageResultId(k)}
      ensures HistoryOf(w'.outbox, StageResultId(k)) == if k == n then [OutcomeEvent(row)] else HistoryOf(w.outbox, StageResultId(k))
    {
      AppendEffect(w.outbox, StageResultId(n), OutcomeEvent(row), StageResultId(k));
    }
  }
}
