/** Stage vocabulary and the immutable progress values an assessment carries:
    the per-stage state machine, its entries, and the ordered tuple of entries. */
module Stages {
  import opened Results

  datatype StageType =
    | Hazard | Exposure | Vulnerability | Risk | Resilience | Validation
    | FireRegime | BurnOccurrenceProbability | BurnSeverity

  datatype TriggerMode = Automatic | Manual

  datatype StageStatus = NotStarted | Running | Complete | Failed

  /** A stage's outcome reference: an opaque text, or the id of a stage-result row. */
  datatype ResultRef = External(text: string) | ResultRow(id: nat)

  datatype StageDefinition = StageDefinition(
    stageType: StageType,
    predecessors: set<StageType>,
    trigger: TriggerMode,
    maxAttempts: int)
  {
    /** What construction of a definition checks. */
    predicate Valid() {
      stageType !in predecessors && maxAttempts >= 1
    }
  }

  /** Every stage type, in the alphabetical order of the stored names. */
  const STAGES_BY_NAME: seq<StageType> :=
    [BurnOccurrenceProbability, BurnSeverity, Exposure, FireRegime, Hazard,
     Resilience, Risk, Validation, Vulnerability]

  lemma NamedStage(s: StageType)
    ensures s in STAGES_BY_NAME
  {
    match s
    case Hazard => assert STAGES_BY_NAME[4] == s;
    case Exposure => assert STAGES_BY_NAME[2] == s;
    case Vulnerability => assert STAGES_BY_NAME[8] == s;
    case Risk => assert STAGES_BY_NAME[6] == s;
    case Resilience => assert STAGES_BY_NAME[5] == s;
    case Validation => assert STAGES_BY_NAME[7] == s;
    case FireRegime => assert STAGES_BY_NAME[3] == s;
    case BurnOccurrenceProbability => assert STAGES_BY_NAME[0] == s;
    case BurnSeverity => assert STAGES_BY_NAME[1] == s;
  }

  function AllStages(): (all: set<StageType>)
    ensures forall s :: s in all
    ensures |all| == 9
  {
    var all := {Hazard, Exposure, Vulnerability, Risk, Resilience, Validation,
                FireRegime, BurnOccurrenceProbability, BurnSeverity};
    assert forall s: StageType :: s in all by {
      forall s: StageType ensures s in all { NamedStage(s); }
    }
    all
  }

  predicate LegalStageStep(from: StageStatus, to: StageStatus) {
    match from
    case NotStarted => to == Running
    case Running => to == Complete || to == Failed
    case Failed => to == Running
    case Complete => false
  }

  /** A stage can be started from exactly these two statuses. */
  predicate Startable(status: StageStatus) {
    status == NotStarted || status == Failed
  }

  datatype StageEntry = StageEntry(
    stageType: StageType,
    status: StageStatus,
    attempts: nat,
    resultRef: Option<ResultRef>,
    lastError: Option<string>)
  {
    /** The next entry, or None where the per-stage machine forbids the step. */
    function AdvanceTo(to: StageStatus, ref: Option<ResultRef>, error: Option<string>): Option<StageEntry> {
      if !LegalStageStep(status, to) then None
      else if to == Running then
        Some(this.(status := to, attempts := attempts + 1, lastError := None))
      else if to == Complete then
        Some(this.(status := to, resultRef := ref))
      else
        Some(this.(status := to, lastError := error))
    }
  }

  function FreshEntry(s: StageType): StageEntry {
    StageEntry(s, NotStarted, 0, None, None)
  }

  function FindEntry(entries: seq<StageEntry>, s: StageType): (e: StageEntry)
    ensures e.stageType == s
  {
    if entries == [] then FreshEntry(s)
    else if entries[0].stageType == s then entries[0]
    else FindEntry(entries[1..], s)
  }

  function Without(entries: seq<StageEntry>, s: StageType): (rest: seq<StageEntry>)
    ensures forall e <- rest :: e.stageType != s
    ensures forall t :: t != s ==> FindEntry(rest, t) == FindEntry(entries, t)
  {
    if entries == [] then []
    else if entries[0].stageType == s then Without(entries[1..], s)
    else [entries[0]] + Without(entries[1..], s)
  }

  lemma {:induction false} FindAppended(entries: seq<StageEntry>, e: StageEntry, t: StageType)
    requires forall x <- entries :: x.stageType != e.stageType
    ensures FindEntry(entries + [e], t) == if t == e.stageType then e else FindEntry(entries, t)
  {
    if entries != [] {
      assert (entries + [e])[1..] == entries[1..] + [e];
      FindAppended(entries[1..], e, t);
    }
  }

  datatype WorkflowProgress = WorkflowProgress(template: Option<nat>, entries: seq<StageEntry>) {
    function Get(s: StageType): (e: StageEntry)
      ensures e.stageType == s
    {
      FindEntry(entries, s)
    }

    function Status(s: StageType): StageStatus {
      Get(s).status
    }

    /** Replaces the stage's entry, moving it to the end; every other stage reads as before. */
    function WithEntry(e: StageEntry): (p: WorkflowProgress)
      ensures p.template == template
      ensures forall t :: p.Get(t) == if t == e.stageType then e else Get(t)
    {
      var rest := Without(entries, e.stageType);
      assert forall t :: FindEntry(rest + [e], t) == if t == e.stageType then e else FindEntry(entries, t) by {
        forall t ensures FindEntry(rest + [e], t) == if t == e.stageType then e else FindEntry(entries, t) {
          FindAppended(rest, e, t);
        }
      }
      this.(entries := rest + [e])
    }

    predicate AllComplete(stages: set<StageType>) {
      forall s <- stages :: Status(s) == Complete
    }

    function Completed(): set<StageType> {
      set s: StageType | Status(s) == Complete
    }
  }

  /** The replaced entry comes last, after the entries of the other stages. */
  lemma EntryMovesLast(p: WorkflowProgress, e: StageEntry)
    ensures var entries := p.WithEntry(e).entries;
      && entries != [] && entries[|entries| - 1] == e
      && (forall x :: x in entries[..|entries| - 1] <==> x in p.entries && x.stageType != e.stageType)
  {
    WithoutIs(p.entries, e.stageType);
  }

  lemma {:induction false} WithoutIs(entries: seq<StageEntry>, s: StageType)
    ensures forall x :: x in Without(entries, s) <==> x in entries && x.stageType != s
  {
    if entries != [] { WithoutIs(entries[1..], s); }
  }

  const NO_PROGRESS := WorkflowProgress(None, [])

  /** The members of a stage set in name order. */
  function Sorted(stages: set<StageType>): (r: seq<StageType>)
    ensures forall s :: s in r <==> s in stages
  {
    assert forall s: StageType :: s in STAGES_BY_NAME by {
      forall s: StageType ensures s in STAGES_BY_NAME { NamedStage(s); }
    }
    SortedWithin(STAGES_BY_NAME, stages)
  }

  function SortedWithin(names: seq<StageType>, stages: set<StageType>): (r: seq<StageType>)
    ensures forall s :: s in r <==> s in stages && s in names
  {
    if names == [] then []
    else (if names[0] in stages then [names[0]] else []) + SortedWithin(names[1..], stages)
  }

  function FreshEntries(stages: seq<StageType>): (entries: seq<StageEntry>)
    ensures forall s :: FindEntry(entries, s) == FreshEntry(s)
  {
    if stages == [] then [] else [FreshEntry(stages[0])] + FreshEntries(stages[1..])
  }

  /** One untouched entry per stage of the bound template. */
  function Initialize(template: nat, stages: set<StageType>): (p: WorkflowProgress)
    ensures forall s :: p.Get(s) == FreshEntry(s)
  {
    WorkflowProgress(Some(template), FreshEntries(Sorted(stages)))
  }
}
