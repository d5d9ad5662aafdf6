/** Workflow templates: the authoring checks on the stage graph, and the reading of a
    template that tells which stages may run next. */
module Templates {
  import opened Results
  import opened Stages

  datatype TemplateStatus = Draft | Published | Deprecated

  datatype TemplateError =
    | BlankName
    | NoStages
    | UnknownPredecessor(stage: StageType, unknown: set<StageType>)
    | Cyclic(among: set<StageType>)
    | NotDraft(status: TemplateStatus)

  type Graph = map<StageType, set<StageType>>

  // ---- Reading a template ----

  function Types(sds: seq<StageDefinition>): set<StageType> {
    set sd <- sds :: sd.stageType
  }

  /** The first definition of a stage type. */
  function Definition(sds: seq<StageDefinition>, s: StageType): (d: Option<StageDefinition>)
    ensures d.None? <==> s !in Types(sds)
    ensures d.Some? ==> d.value in sds && d.value.stageType == s
  {
    if sds == [] then None
    else if sds[0].stageType == s then Some(sds[0])
    else Definition(sds[1..], s)
  }

  /** The i-th definition is the first of its type. */
  predicate FirstOfType(sds: seq<StageDefinition>, i: nat) {
    i < |sds| && forall k :: 0 <= k < i ==> sds[k].stageType != sds[i].stageType
  }

  /** Looking a type up finds the first of its definitions. */
  lemma {:induction false} FirstDefined(sds: seq<StageDefinition>, i: nat)
    requires FirstOfType(sds, i)
    ensures Definition(sds, sds[i].stageType) == Some(sds[i])
  {
    if i > 0 {
      assert sds[0].stageType != sds[i].stageType;
      FirstDefined(sds[1..], i - 1);
    }
  }

  lemma {:induction false} FirstExists(sds: seq<StageDefinition>, s: StageType) returns (i: nat)
    requires s in Types(sds)
    ensures FirstOfType(sds, i) && sds[i].stageType == s
  {
    if sds[0].stageType == s {
      i := 0;
    } else {
      i := FirstExists(sds[1..], s);
      i := i + 1;
    }
  }

  /** Predecessors by stage type; a later definition of the same type overrides. */
  function Predecessors(sds: seq<StageDefinition>): (g: Graph)
    ensures g.Keys == Types(sds)
    ensures forall s <- g :: exists sd <- sds :: sd.stageType == s && sd.predecessors == g[s]
  {
    if sds == [] then map[]
    else
      var last := sds[|sds| - 1];
      Predecessors(sds[..|sds| - 1])[last.stageType := last.predecessors]
  }

  lemma {:induction false} LastOverrides(sds: seq<StageDefinition>, i: nat)
    requires i < |sds| && forall k :: i < k < |sds| ==> sds[k].stageType != sds[i].stageType
    ensures sds[i].stageType in Predecessors(sds) && Predecessors(sds)[sds[i].stageType] == sds[i].predecessors
  {
    var n := |sds| - 1;
    if i < n {
      assert sds[n].stageType != sds[i].stageType;
      LastOverrides(sds[..n], i);
    }
  }

  predicate Known(sds: seq<StageDefinition>) {
    forall sd <- sds :: sd.predecessors <= Types(sds)
  }

  /** The i-th definition is the first with predecessors the template does not have. */
  predicate FirstUnknown(sds: seq<StageDefinition>, i: nat, s: StageType, unknown: set<StageType>)
    requires i < |sds|
  {
    && unknown != {} && sds[i].stageType == s && unknown == sds[i].predecessors - Types(sds)
    && (forall k :: 0 <= k < i ==> sds[k].predecessors <= Types(sds))
  }

  predicate Runnable(sd: StageDefinition, progress: WorkflowProgress) {
    Startable(progress.Status(sd.stageType)) && progress.AllComplete(sd.predecessors)
  }

  function RunnableStages(sds: seq<StageDefinition>, progress: WorkflowProgress): (r: seq<StageDefinition>)
    ensures forall sd :: sd in r <==> sd in sds && Runnable(sd, progress)
  {
    if sds == [] then []
    else (if Runnable(sds[0], progress) then [sds[0]] else []) + RunnableStages(sds[1..], progress)
  }

  predicate CanRun(sd: StageDefinition, progress: WorkflowProgress) {
    && (progress.Get(sd.stageType).status == NotStarted || progress.Get(sd.stageType).status == Failed)
    && (forall q :: q in sd.predecessors ==> progress.Get(q).status == Complete)
  }

  /** The places of the definitions that can run, in template order. */
  function RunnablePlaces(sds: seq<StageDefinition>, progress: WorkflowProgress): (ps: seq<nat>)
    ensures forall i :: 0 <= i < |ps| ==> ps[i] < |sds| && CanRun(sds[ps[i]], progress)
    ensures forall i, j :: 0 <= i < j < |ps| ==> ps[i] < ps[j]
    ensures forall k :: 0 <= k < |sds| && CanRun(sds[k], progress) ==> k in ps
  {
    if sds == [] then []
    else
      var n := |sds| - 1;
      var before := RunnablePlaces(sds[..n], progress);
      if CanRun(sds[n], progress) then before + [n] else before
  }

  lemma {:induction false} RunnableBack(sds: seq<StageDefinition>, progress: WorkflowProgress)
    requires sds != []
    ensures var n := |sds| - 1;
      RunnableStages(sds, progress)
      == RunnableStages(sds[..n], progress) + (if Runnable(sds[n], progress) then [sds[n]] else [])
  {
    var n := |sds| - 1;
    if n > 0 {
      RunnableBack(sds[1..], progress);
      assert sds[1..][..n - 1] == sds[..n][1..];
    } else {
      assert RunnableStages(sds[1..], progress) == [] && RunnableStages(sds[..n], progress) == [];
    }
  }

  /** The list holds the definitions at these places, in this order. */
  predicate PickedAt(sds: seq<StageDefinition>, ps: seq<nat>, list: seq<StageDefinition>) {
    |list| == |ps| && forall i :: 0 <= i < |ps| ==> ps[i] < |sds| && list[i] == sds[ps[i]]
  }

  lemma OneMorePicked(sds: seq<StageDefinition>, ps: seq<nat>, list: seq<StageDefinition>)
    requires sds != [] && PickedAt(sds[..|sds| - 1], ps, list)
    ensures PickedAt(sds, ps, list) && PickedAt(sds, ps + [|sds| - 1], list + [sds[|sds| - 1]])
  {}

  lemma CanRunIff(sd: StageDefinition, progress: WorkflowProgress)
    ensures Runnable(sd, progress) <==> CanRun(sd, progress)
  {}

  /** The stages offered are exactly those that can run, in template order. */
  lemma {:induction false} RunnableInOrder(sds: seq<StageDefinition>, progress: WorkflowProgress)
    ensures PickedAt(sds, RunnablePlaces(sds, progress), RunnableStages(sds, progress))
  {
    if sds != [] {
      var n := |sds| - 1;
      var list := RunnableStages(sds[..n], progress);
      RunnableInOrder(sds[..n], progress);
      RunnableBack(sds, progress);
      CanRunIff(sds[n], progress);
      OneMorePicked(sds, RunnablePlaces(sds[..n], progress), list);
      assert list + [] == list;
    }
  }

  // ---- Orders and cycles ----

  predicate Distinct<T(==)>(xs: seq<T>) {
    forall i, j :: 0 <= i < j < |xs| ==> xs[i] != xs[j]
  }

  /** Every listed stage comes after all its predecessors. */
  predicate Ordered(g: Graph, order: seq<StageType>) {
    && Distinct(order)
    && (forall i :: 0 <= i < |order| ==> order[i] in g && forall p <- g[order[i]] :: p in order[..i])
  }

  predicate Topological(g: Graph, order: seq<StageType>) {
    Ordered(g, order) && forall s <- g :: s in order
  }

  ghost predicate Acyclic(g: Graph) {
    exists order :: Topological(g, order)
  }

  /** A closed walk inside `among`, each stage followed by one of its predecessors. */
  predicate Cycle(g: Graph, among: set<StageType>, walk: seq<StageType>) {
    && |walk| >= 2
    && walk[0] == walk[|walk| - 1]
    && (forall s <- walk :: s in among && s in g)
    && (forall i :: 0 <= i < |walk| - 1 ==> walk[i + 1] in g[walk[i]])
  }

  predicate Waits(g: Graph, among: set<StageType>, s: StageType) {
    s in g && exists p <- among :: p in g[s]
  }

  /** Each stage of the set waits for a stage of the set. */
  predicate Stuck(g: Graph, among: set<StageType>) {
    forall s {:trigger Waits(g, among, s)} | s in among :: Waits(g, among, s)
  }

  /** The largest set of stages waiting on one another; it contains a cycle. */
  ghost predicate CyclicCore(g: Graph, among: set<StageType>) {
    && among != {} && Stuck(g, among)
    && (forall other :: Stuck(g, other) ==> other <= among)
    && (exists walk :: Cycle(g, among, walk))
  }

  ghost function Walk(g: Graph, among: set<StageType>, s: StageType, steps: nat): (w: seq<StageType>)
    requires Stuck(g, among) && s in among
    ensures |w| == steps + 1 && w[0] == s
    ensures forall t <- w :: t in among
    ensures forall i :: 0 <= i <= steps ==> w[i] in g
    ensures forall i :: 0 <= i < steps ==> w[i + 1] in g[w[i]]
    decreases steps
  {
    assert Waits(g, among, s);
    if steps == 0 then [s]
    else
      var p :| p in among && p in g[s];
      [s] + Walk(g, among, p, steps - 1)
  }

  lemma {:induction false} DistinctFits<T>(xs: seq<T>, within: set<T>)
    requires Distinct(xs) && forall x <- xs :: x in within
    ensures |xs| <= |within|
  {
    if xs != [] {
      var n := |xs| - 1;
      assert Distinct(xs[..n]);
      assert forall x <- xs[..n] :: x in within - {xs[n]};
      DistinctFits(xs[..n], within - {xs[n]});
    }
  }

  lemma StuckHasCycle(g: Graph, among: set<StageType>)
    requires Stuck(g, among) && among != {}
    ensures exists walk :: Cycle(g, among, walk)
  {
    var s :| s in among;
    var w := Walk(g, among, s, |among|);
    if Distinct(w) { DistinctFits(w, among); assert false; }
    var i, j :| 0 <= i < j < |w| && w[i] == w[j];
    var walk := w[i..j + 1];
    assert Cycle(g, among, walk);
  }

  lemma IndexIn<T>(xs: seq<T>, x: T) returns (i: nat)
    requires x in xs
    ensures i < |xs| && xs[i] == x
  {
    i :| 0 <= i < |xs| && xs[i] == x;
  }

  /** Along a closed walk positions in an order would have to fall for ever. */
  lemma {:induction false} CycleFallsBelow(g: Graph, order: seq<StageType>, among: set<StageType>, walk: seq<StageType>, k: nat)
    returns (start: nat, here: nat)
    requires Topological(g, order) && Cycle(g, among, walk) && 1 <= k < |walk|
    ensures here < start < |order| && order[start] == walk[0] && order[here] == walk[k]
  {
    var prev;
    if k == 1 {
      start := IndexIn(order, walk[0]);
      prev := start;
    } else {
      start, prev := CycleFallsBelow(g, order, among, walk, k - 1);
    }
    assert walk[k - 1 + 1] in g[walk[k - 1]];
    here := IndexIn(order[..prev], walk[k]);
  }

  lemma CycleExcludesOrder(g: Graph, among: set<StageType>, walk: seq<StageType>)
    requires Cycle(g, among, walk)
    ensures !Acyclic(g)
  {
    if Acyclic(g) {
      var order :| Topological(g, order);
      var a, b := CycleFallsBelow(g, order, among, walk, |walk| - 1);
    }
  }

  /** No deadlock: once the graph was accepted, a template with none of its stages running
      and not all complete always offers a stage to run. */
  lemma {:induction false} SomethingRunnable(sds: seq<StageDefinition>, progress: WorkflowProgress)
    requires Acyclic(Predecessors(sds))
    requires forall s <- Types(sds) :: progress.Status(s) != Running
    requires !progress.AllComplete(Types(sds))
    ensures RunnableStages(sds, progress) != []
  {
    var g := Predecessors(sds);
    var order :| Topological(g, order);
    var i := FirstIncomplete(order, progress);
    var sd :| sd in sds && sd.stageType == order[i] && sd.predecessors == g[order[i]];
    assert sd in RunnableStages(sds, progress);
  }

  lemma {:induction false} FirstIncomplete(order: seq<StageType>, progress: WorkflowProgress) returns (i: nat)
    requires exists s <- order :: progress.Status(s) != Complete
    ensures i < |order| && progress.Status(order[i]) != Complete
    ensures forall s <- order[..i] :: progress.Status(s) == Complete
  {
    if progress.Status(order[0]) != Complete {
      i := 0;
    } else {
      i := FirstIncomplete(order[1..], progress);
      i := i + 1;
      assert order[..i] == [order[0]] + order[1..][..i - 1];
    }
  }

  // ---- The authoring aggregate ----

  class WorkflowTemplate {
    const name: string
    const version: nat
    const stageDefinitions: seq<StageDefinition>
    var status: TemplateStatus

    constructor (name: string, stageDefinitions: seq<StageDefinition>, version: nat)
      ensures this.name == name && this.stageDefinitions == stageDefinitions && this.version == version
      ensures status == Draft
    {
      this.name := name;
      this.stageDefinitions := stageDefinitions;
      this.version := version;
      status := Draft;
    }

    /** Creation succeeds exactly for a named, non-empty, closed and acyclic stage graph. */
    static method Create(name: string, stageDefinitions: seq<StageDefinition>, version: nat)
      returns (r: Result<WorkflowTemplate, TemplateError>)
      ensures r.Ok? <==>
        && !Blank(name) && stageDefinitions != []
        && Known(stageDefinitions) && Acyclic(Predecessors(stageDefinitions))
      ensures r.Ok? ==> fresh(r.value) && r.value.stageDefinitions == stageDefinitions
                        && r.value.name == name && r.value.version == version && r.value.status == Draft
      ensures r.Err? && r.error.Cyclic? ==> exists walk :: Cycle(Predecessors(stageDefinitions), r.error.among, walk)
      ensures r.Err? ==> match r.error
        case BlankName => Blank(name)
        case NoStages => !Blank(name) && stageDefinitions == []
        case UnknownPredecessor(s, unknown) => !Blank(name)
          && exists i :: 0 <= i < |stageDefinitions| && FirstUnknown(stageDefinitions, i, s, unknown)
        case Cyclic(among) => !Blank(name) && Known(stageDefinitions) && CyclicCore(Predecessors(stageDefinitions), among)
        case NotDraft(_) => false
    {
      if Blank(name) {
        return Err(BlankName);
      }
      if stageDefinitions == [] {
        return Err(NoStages);
      }
      var template := new WorkflowTemplate(name, stageDefinitions, version);
      var checked := template.ValidateDag();
      match checked
      case Ok(_) => return Ok(template);
      case Err(e) => return Err(e);
    }

    method CheckPredecessors() returns (r: Result<(), TemplateError>)
      ensures r.Ok? <==> Known(stageDefinitions)
      ensures r.Err? ==> r.error.UnknownPredecessor?
      ensures r.Err? ==>
        exists i :: 0 <= i < |stageDefinitions| && FirstUnknown(stageDefinitions, i, r.error.stage, r.error.unknown)
    {
      var known := Types(stageDefinitions);
      for i := 0 to |stageDefinitions|
        invariant forall k :: 0 <= k < i ==> stageDefinitions[k].predecessors <= known
      {
        var unknown := stageDefinitions[i].predecessors - known;
        if unknown != {} {
          assert stageDefinitions[i] in stageDefinitions;
          assert FirstUnknown(stageDefinitions, i, stageDefinitions[i].stageType, unknown);
          return Err(UnknownPredecessor(stageDefinitions[i].stageType, unknown));
        }
        assert forall p <- stageDefinitions[i].predecessors :: p in unknown || p in known;
      }
      return Ok(());
    }

    /** One pass of Kahn's algorithm, in any order: each stage whose predecessors are resolved is resolved. */
    static method ResolvePass(ghost g: Graph, graph: Graph, done: set<StageType>, ghost before: seq<StageType>)
      returns (remaining: Graph, resolved: set<StageType>, progressed: bool, ghost order: seq<StageType>)
      requires Partition(g, graph, done, before)
      ensures Partition(g, remaining, resolved, order)
      ensures if progressed then |remaining| < |graph| else |remaining| == |graph|
      ensures !progressed ==> forall s <- remaining :: !(remaining[s] <= resolved)
    {
      remaining, resolved, progressed, order := graph, done, false, before;
      var items := remaining.Keys;
      while items != {}
        invariant items <= remaining.Keys
        invariant Partition(g, remaining, resolved, order)
        invariant if progressed then |remaining| < |graph| else |remaining| == |graph|
        invariant !progressed ==> forall s <- remaining :: s in items || !(remaining[s] <= resolved)
        decreases items
      {
        var s :| s in items;
        items := items - {s};
        if remaining[s] <= resolved {
          PartitionStep(g, remaining, resolved, order, s);
          resolved := resolved + {s};
          remaining := remaining - {s};
          order := order + [s];
          progressed := true;
        }
      }
    }

    /** Kahn's algorithm. It accepts exactly the closed graphs that have a topological order;
        the stages it reports as cyclic are exactly the largest set of stages waiting on one another,
        and contain a cycle. */
    method ValidateDag() returns (r: Result<(), TemplateError>)
      ensures r.Ok? <==> Known(stageDefinitions) && Acyclic(Predecessors(stageDefinitions))
      ensures r.Err? ==> match r.error
        case UnknownPredecessor(s, unknown) =>
          exists i :: 0 <= i < |stageDefinitions| && FirstUnknown(stageDefinitions, i, s, unknown)
        case Cyclic(among) =>
          Known(stageDefinitions) && CyclicCore(Predecessors(stageDefinitions), among)
        case _ => false
    {
      r := CheckPredecessors();
      if r.Err? {
        return;
      }
      GraphIsClosed(stageDefinitions);
      ghost var g := Predecessors(stageDefinitions);
      var remaining := Predecessors(stageDefinitions);
      var resolved: set<StageType> := {};
      var progressed := true;
      ghost var order: seq<StageType> := [];
      while remaining != map[] && progressed
        invariant Partition(g, remaining, resolved, order)
        invariant !progressed ==> forall s <- remaining :: !(remaining[s] <= resolved)
        decreases |remaining|, if progressed then 1 else 0
      {
        remaining, resolved, progressed, order := ResolvePass(g, remaining, resolved, order);
      }
      if remaining != map[] {
        RemainingIsCyclic(g, remaining, resolved, order);
        return Err(Cyclic(remaining.Keys));
      }
      AllResolved(g, resolved, order);
      return Ok(());
    }

    method Publish() returns (r: Result<(), TemplateError>)
      modifies this`status
      ensures r == if old(status) == Draft then Ok(()) else Err(NotDraft(old(status)))
      ensures status == if old(status) == Draft then Published else old(status)
    {
      if status != Draft {
        return Err(NotDraft(status));
      }
      status := Published;
      return Ok(());
    }

    method SelectRunnable(progress: WorkflowProgress) returns (r: seq<StageDefinition>)
      ensures r == RunnableStages(stageDefinitions, progress)
    {
      r := [];
      for i := 0 to |stageDefinitions|
        invariant r + RunnableStages(stageDefinitions[i..], progress) == RunnableStages(stageDefinitions, progress)
      {
        var sd := stageDefinitions[i];
        RunnableFrom(stageDefinitions, progress, i);
        if Runnable(sd, progress) {
          Regrouped(r, [sd], RunnableStages(stageDefinitions[i + 1..], progress));
          r := r + [sd];
        }
      }
    }
  }

  lemma Regrouped<T>(a: seq<T>, b: seq<T>, c: seq<T>)
    ensures a + (b + c) == a + b + c
  {}

  lemma RunnableFrom(sds: seq<StageDefinition>, progress: WorkflowProgress, i: nat)
    requires i < |sds|
    ensures var rest := RunnableStages(sds[i + 1..], progress);
      RunnableStages(sds[i..], progress) == if Runnable(sds[i], progress) then [sds[i]] + rest else rest
  {
    assert sds[i..][1..] == sds[i + 1..];
    assert [] + RunnableStages(sds[i + 1..], progress) == RunnableStages(sds[i + 1..], progress);
  }

  /** What both loops keep: the stages are split into resolved ones, listed in a valid order,
      and remaining ones with their predecessors untouched. */
  ghost predicate Partition(g: Graph, remaining: Graph, resolved: set<StageType>, order: seq<StageType>) {
    && remaining == g - resolved
    && Ordered(g, order)
    && (forall s :: s in order <==> s in resolved)
  }

  lemma PartitionStep(g: Graph, remaining: Graph, resolved: set<StageType>, order: seq<StageType>, s: StageType)
    requires Partition(g, remaining, resolved, order) && s in remaining && remaining[s] <= resolved
    ensures Partition(g, remaining - {s}, resolved + {s}, order + [s])
  {
    assert (order + [s])[..|order|] == order;
    assert forall i :: 0 <= i < |order| ==> (order + [s])[..i] == order[..i];
  }

  lemma RemainingIsStuck(g: Graph, remaining: Graph, resolved: set<StageType>, order: seq<StageType>)
    requires Partition(g, remaining, resolved, order)
    requires forall s <- g :: g[s] <= g.Keys
    requires forall s <- remaining :: !(remaining[s] <= resolved)
    ensures Stuck(g, remaining.Keys)
    ensures forall other :: Stuck(g, other) ==> other <= remaining.Keys
  {
    forall s <- remaining.Keys ensures Waits(g, remaining.Keys, s) {
      var p :| p in remaining[s] && p !in resolved;
      assert p in remaining.Keys;
    }
    forall other | Stuck(g, other) ensures other <= remaining.Keys {
      NeverResolved(g, order, other, |order|);
      assert order[..|order|] == order;
      forall s <- other ensures s in remaining { assert Waits(g, other, s); }
    }
  }

  lemma GraphIsClosed(sds: seq<StageDefinition>)
    requires Known(sds)
    ensures forall s <- Predecessors(sds) :: Predecessors(sds)[s] <= Predecessors(sds).Keys
  {}

  lemma AllResolved(g: Graph, resolved: set<StageType>, order: seq<StageType>)
    requires Partition(g, map[], resolved, order)
    ensures Acyclic(g)
  {
    forall s <- g ensures s in order { assert s in resolved || s in g - resolved; }
    assert Topological(g, order);
  }

  lemma RemainingIsCyclic(g: Graph, remaining: Graph, resolved: set<StageType>, order: seq<StageType>)
    requires Partition(g, remaining, resolved, order) && remaining != map[]
    requires forall s <- g :: g[s] <= g.Keys
    requires forall s <- remaining :: !(remaining[s] <= resolved)
    ensures CyclicCore(g, remaining.Keys) && !Acyclic(g)
  {
    RemainingIsStuck(g, remaining, resolved, order);
    StuckHasCycle(g, remaining.Keys);
    var walk :| Cycle(g, remaining.Keys, walk);
    CycleExcludesOrder(g, remaining.Keys, walk);
  }

  lemma {:induction false} NeverResolved(g: Graph, order: seq<StageType>, among: set<StageType>, n: nat)
    requires Ordered(g, order) && Stuck(g, among) && n <= |order|
    ensures forall s <- order[..n] :: s !in among
  {
    if n > 0 {
      NeverResolved(g, order, among, n - 1);
      assert order[n - 1] in among ==> Waits(g, among, order[n - 1]);
      assert order[..n] == order[..n - 1] + [order[n - 1]];
    }
  }
}
