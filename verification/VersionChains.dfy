/** Versioned rows that are superseded, never overwritten: datasets by name, areas of interest by
    assessment. A row's id is its position. */
module VersionChains {
  import opened Results

  /** One provenance entry; a revision refers to the row it revises. */
  datatype Provenance = Catalogued(actor: string) | Revised(actor: string, description: string, previous: nat)

  datatype Row = Row(tenant: nat, key: string, version: nat, current: bool, provenance: seq<Provenance>) {
    predicate Of(tenant: nat, key: string) {
      this.tenant == tenant && this.key == key
    }
  }

  /** A dataset source: of one tenant, or global. */
  datatype Source = Source(tenant: Option<nat>)

  datatype ChainError = NothingToRevise | SourceNotFound

  // ---- Specification ----

  /** The current row with the highest version, the later one on a tie. */
  function Latest(rows: seq<Row>, tenant: nat, key: string): (k: Option<nat>)
    ensures k.Some? ==> k.value < |rows| && rows[k.value].Of(tenant, key) && rows[k.value].current
  {
    if rows == [] then None
    else
      var n := |rows| - 1;
      var before := Latest(rows[..n], tenant, key);
      if rows[n].Of(tenant, key) && rows[n].current && (before == None || rows[n].version >= rows[before.value].version)
      then Some(n) else before
  }

  function Added(rows: seq<Row>, tenant: nat, key: string, actor: string): seq<Row> {
    rows + [Row(tenant, key, 1, true, [Catalogued(actor)])]
  }

  function Superseded(rows: seq<Row>, k: nat, actor: string, description: string): seq<Row>
    requires k < |rows|
  {
    rows[k := rows[k].(current := false)]
      + [Row(rows[k].tenant, rows[k].key, rows[k].version + 1, true, rows[k].provenance + [Revised(actor, description, k)])]
  }

  function Put(rows: seq<Row>, tenant: nat, key: string, actor: string, description: string): seq<Row> {
    match Latest(rows, tenant, key)
    case None => Added(rows, tenant, key, actor)
    case Some(k) => Superseded(rows, k, actor, description)
  }

  class Catalog {
    const sources: seq<Source>
    var rows: seq<Row>

    constructor (sources: seq<Source>)
      ensures rows == [] && this.sources == sources
    {
      this.sources := sources;
      rows := [];
    }

    /** Whether the tenant may use the source: a global one, or its own. */
    predicate Usable(tenant: nat, source: nat) {
      source < |sources| && (sources[source].tenant == None || sources[source].tenant == Some(tenant))
    }

    /** Catalogs without looking for an existing row; a source of another tenant is as good as none. */
    method CatalogNew(tenant: nat, source: nat, key: string, actor: string) returns (r: Result<nat, ChainError>)
      modifies this
      ensures if Usable(tenant, source) then r == Ok(|old(rows)|) && rows == Added(old(rows), tenant, key, actor)
              else r == Err(SourceNotFound) && rows == old(rows)
    {
      if source >= |sources| {
        return Err(SourceNotFound);
      }
      if sources[source].tenant.Some? && sources[source].tenant.value != tenant {
        return Err(SourceNotFound);
      }
      Add(tenant, key, actor);
      return Ok(|rows| - 1);
    }

    method Add(tenant: nat, key: string, actor: string)
      modifies this
      ensures rows == Added(old(rows), tenant, key, actor)
    {
      rows := rows + [Row(tenant, key, 1, true, [Catalogued(actor)])];
    }

    method Revise(tenant: nat, key: string, actor: string, description: string) returns (r: Result<nat, ChainError>)
      modifies this
      ensures match Latest(old(rows), tenant, key)
        case None => r == Err(NothingToRevise) && rows == old(rows)
        case Some(k) => r == Ok(|old(rows)|) && rows == Superseded(old(rows), k, actor, description)
    {
      match Latest(rows, tenant, key)
      case None => return Err(NothingToRevise);
      case Some(k) =>
        var previous := rows[k];
        rows := rows[k := previous.(current := false)];
        rows := rows + [Row(previous.tenant, previous.key, previous.version + 1, true,
                            previous.provenance + [Revised(actor, description, k)])];
        return Ok(|rows| - 1);
    }

    /** Catalogs a new key, or revises the current row of a known one. */
    method CatalogOrRevise(tenant: nat, key: string, actor: string, description: string)
      modifies this
      ensures rows == Put(old(rows), tenant, key, actor, description)
    {
      var revised := Revise(tenant, key, actor, description);
      if revised.Err? {
        Add(tenant, key, actor);
      }
    }
  }

  // ---- Chains ----

  function Positions(rows: seq<Row>, tenant: nat, key: string): (ps: seq<nat>)
    ensures forall i :: 0 <= i < |ps| ==> ps[i] < |rows| && rows[ps[i]].Of(tenant, key)
    ensures forall i, j :: 0 <= i < j < |ps| ==> ps[i] < ps[j]
    ensures forall k :: 0 <= k < |rows| && rows[k].Of(tenant, key) ==> k in ps
  {
    if rows == [] then []
    else
      var n := |rows| - 1;
      var before := Positions(rows[..n], tenant, key);
      if rows[n].Of(tenant, key) then before + [n] else before
  }

  /** Row `i` of a chain of n: version i + 1, current only if last, one provenance entry more than
      the row before it, which the new entry names. */
  predicate Link(rows: seq<Row>, ps: seq<nat>, i: nat)
    requires i < |ps| && forall j :: 0 <= j < |ps| ==> ps[j] < |rows|
  {
    var row := rows[ps[i]];
    && row.version == i + 1 == |row.provenance|
    && row.current == (i == |ps| - 1)
    && (i == 0 ==> row.provenance[0].Catalogued?)
    && (i > 0 ==>
          && row.provenance[i].Revised? && row.provenance[i].previous == ps[i - 1]
          && row.provenance[..i] == rows[ps[i - 1]].provenance)
  }

  predicate Chain(rows: seq<Row>, tenant: nat, key: string) {
    var ps := Positions(rows, tenant, key);
    forall i :: 0 <= i < |ps| ==> Link(rows, ps, i)
  }

  lemma {:induction false} SamePositions(rows: seq<Row>, rows': seq<Row>, tenant: nat, key: string)
    requires |rows| == |rows'|
    requires forall k :: 0 <= k < |rows| ==> rows'[k].Of(tenant, key) == rows[k].Of(tenant, key)
    ensures Positions(rows', tenant, key) == Positions(rows, tenant, key)
  {
    if rows != [] { SamePositions(rows[..|rows| - 1], rows'[..|rows| - 1], tenant, key); }
  }

  lemma {:induction false} LatestIs(rows: seq<Row>, tenant: nat, key: string, k: nat)
    requires k < |rows| && rows[k].Of(tenant, key) && rows[k].current
    requires forall j :: 0 <= j < |rows| && rows[j].Of(tenant, key) && rows[j].current ==> j == k
    ensures Latest(rows, tenant, key) == Some(k)
  {
    var n := |rows| - 1;
    if k < n { LatestIs(rows[..n], tenant, key, k); }
    else { var before := Latest(rows[..n], tenant, key); }
  }

  lemma LinkCurrent(rows: seq<Row>, ps: seq<nat>, i: nat)
    requires i < |ps| && forall j :: 0 <= j < |ps| ==> ps[j] < |rows|
    requires Link(rows, ps, i)
    ensures rows[ps[i]].current <==> i == |ps| - 1
  {}

  lemma PositionOf(rows: seq<Row>, tenant: nat, key: string, j: nat) returns (i: nat)
    requires j < |rows| && rows[j].Of(tenant, key)
    ensures var ps := Positions(rows, tenant, key);
      i < |ps| && ps[i] == j && (j == ps[|ps| - 1] <==> i == |ps| - 1)
  {
    var ps := Positions(rows, tenant, key);
    assert j in ps;
    i :| 0 <= i < |ps| && ps[i] == j;
    if i < |ps| - 1 { assert ps[i] < ps[|ps| - 1]; }
  }

  lemma OnlyLastCurrent(rows: seq<Row>, tenant: nat, key: string, j: nat)
    requires Chain(rows, tenant, key) && j < |rows| && rows[j].Of(tenant, key)
    ensures var ps := Positions(rows, tenant, key);
      ps != [] && (rows[j].current <==> j == ps[|ps| - 1])
  {
    var i := PositionOf(rows, tenant, key, j);
    LinkCurrent(rows, Positions(rows, tenant, key), i);
  }

  /** In a chain the row found is the last version. */
  lemma LatestIsLast(rows: seq<Row>, tenant: nat, key: string)
    requires Chain(rows, tenant, key)
    ensures var ps := Positions(rows, tenant, key);
      Latest(rows, tenant, key) == if ps == [] then None else Some(ps[|ps| - 1])
  {
    forall j: nat | j < |rows| && rows[j].Of(tenant, key)
      ensures var ps := Positions(rows, tenant, key); ps != [] && (rows[j].current <==> j == ps[|ps| - 1])
    {
      OnlyLastCurrent(rows, tenant, key, j);
    }
    var ps := Positions(rows, tenant, key);
    if ps != [] { LatestIs(rows, tenant, key, ps[|ps| - 1]); }
  }

  lemma AppendedPositions(rows: seq<Row>, row: Row, tenant: nat, key: string)
    ensures Positions(rows + [row], tenant, key)
         == if row.Of(tenant, key) then Positions(rows, tenant, key) + [|rows|] else Positions(rows, tenant, key)
  {
    assert (rows + [row])[..|rows|] == rows;
  }

  /** Cataloguing keeps the chain exactly when the key is new. */
  lemma AddKeepsChainIffNew(rows: seq<Row>, tenant: nat, key: string, actor: string)
    requires Chain(rows, tenant, key)
    ensures Chain(Added(rows, tenant, key, actor), tenant, key) <==> Positions(rows, tenant, key) == []
  {
    var ps := Positions(rows, tenant, key);
    var rows' := Added(rows, tenant, key, actor);
    AppendedPositions(rows, rows'[|rows|], tenant, key);
    var ps' := Positions(rows', tenant, key);
    if ps != [] {
      assert !Link(rows', ps', |ps|);
    }
  }

  lemma SupersededPositions(rows: seq<Row>, k: nat, actor: string, description: string, tenant: nat, key: string)
    requires k < |rows|
    ensures Positions(Superseded(rows, k, actor, description), tenant, key)
         == if rows[k].Of(tenant, key) then Positions(rows, tenant, key) + [|rows|] else Positions(rows, tenant, key)
  {
    var closed := rows[k := rows[k].(current := false)];
    SamePositions(rows, closed, tenant, key);
    AppendedPositions(closed, Superseded(rows, k, actor, description)[|rows|], tenant, key);
  }

  lemma SupersededLinks(rows: seq<Row>, ps: seq<nat>, actor: string, description: string, i: nat)
    requires ps != [] && forall j :: 0 <= j < |ps| ==> ps[j] < |rows|
    requires forall j, l :: 0 <= j < l < |ps| ==> ps[j] < ps[l]
    requires forall j :: 0 <= j < |ps| ==> Link(rows, ps, j)
    requires i <= |ps|
    ensures Link(Superseded(rows, ps[|ps| - 1], actor, description), ps + [|rows|], i)
  {
    var last := ps[|ps| - 1];
    assert Link(rows, ps, |ps| - 1);
    if i < |ps| { assert Link(rows, ps, i); }
    if i == |ps| {
      assert (rows[last].provenance + [Revised(actor, description, last)])[..i] == rows[last].provenance;
    }
  }

  lemma SupersedeKeepsChain(rows: seq<Row>, tenant: nat, key: string, actor: string, description: string)
    requires Chain(rows, tenant, key) && Latest(rows, tenant, key).Some?
    ensures var rows' := Superseded(rows, Latest(rows, tenant, key).value, actor, description);
      Chain(rows', tenant, key) && |Positions(rows', tenant, key)| == |Positions(rows, tenant, key)| + 1
  {
    LatestIsLast(rows, tenant, key);
    var ps := Positions(rows, tenant, key);
    var k := ps[|ps| - 1];
    SupersededPositions(rows, k, actor, description, tenant, key);
    forall i: nat | i <= |ps| ensures Link(Superseded(rows, k, actor, description), ps + [|rows|], i) {
      SupersededLinks(rows, ps, actor, description, i);
    }
  }

  lemma OtherChainsKept(rows: seq<Row>, k: nat, actor: string, description: string, tenant: nat, key: string)
    requires k < |rows| && !rows[k].Of(tenant, key) && Chain(rows, tenant, key)
    ensures Chain(Superseded(rows, k, actor, description), tenant, key)
  {
    var rows' := Superseded(rows, k, actor, description);
    SupersededPositions(rows, k, actor, description, tenant, key);
    var ps := Positions(rows, tenant, key);
    forall i | 0 <= i < |ps| ensures Link(rows', ps, i) { LinkKept(rows, rows', ps, i); }
  }

  lemma LinkKept(rows: seq<Row>, rows': seq<Row>, ps: seq<nat>, i: nat)
    requires i < |ps| && forall j :: 0 <= j < |ps| ==> ps[j] < |rows| <= |rows'| && rows'[ps[j]] == rows[ps[j]]
    requires Link(rows, ps, i)
    ensures Link(rows', ps, i)
  {}

  lemma OtherChainsKeptByAdd(rows: seq<Row>, row: Row, tenant: nat, key: string)
    requires !row.Of(tenant, key) && Chain(rows, tenant, key)
    ensures Chain(rows + [row], tenant, key)
  {
    AppendedPositions(rows, row, tenant, key);
    var ps := Positions(rows, tenant, key);
    forall i | 0 <= i < |ps| ensures Link(rows + [row], ps, i) { LinkKept(rows, rows + [row], ps, i); }
  }

  // ---- Serial runs ----

  datatype Change =
    | Upload(tenant: nat, key: string, actor: string, description: string)
    | Revision(tenant: nat, key: string, actor: string, description: string)
    | Cataloguing(tenant: nat, key: string, actor: string)
  {
    predicate On(tenant: nat, key: string) {
      this.tenant == tenant && this.key == key
    }
  }

  function Do(rows: seq<Row>, change: Change): seq<Row> {
    match change
    case Upload(tenant, key, actor, description) => Put(rows, tenant, key, actor, description)
    case Revision(tenant, key, actor, description) =>
      (match Latest(rows, tenant, key)
       case None => rows
       case Some(k) => Superseded(rows, k, actor, description))
    case Cataloguing(tenant, key, actor) => Added(rows, tenant, key, actor)
  }

  /** A current row of the key. */
  predicate CurrentAt(rows: seq<Row>, tenant: nat, key: string, k: nat) {
    k < |rows| && rows[k].tenant == tenant && rows[k].key == key && rows[k].current
  }

  lemma {:induction false} LatestCurrent(rows: seq<Row>, tenant: nat, key: string)
    ensures match Latest(rows, tenant, key)
      case None => forall k: nat :: !CurrentAt(rows, tenant, key, k)
      case Some(k) =>
        && CurrentAt(rows, tenant, key, k)
        && (forall j: nat :: CurrentAt(rows, tenant, key, j) ==>
              rows[j].version < rows[k].version || (rows[j].version == rows[k].version && j <= k))
  {
    if rows != [] {
      var n := |rows| - 1;
      LatestCurrent(rows[..n], tenant, key);
      forall k: nat | CurrentAt(rows, tenant, key, k) ensures k == n || CurrentAt(rows[..n], tenant, key, k) {}
    }
  }

  /** A plain cataloguing adds a first version. An upload or a revision replaces the current row of its own key and
      tenant, of the highest version if there are several: that row is closed, and the next version added to
      the end with one more provenance entry. Where there is none an upload adds a first version, and a
      revision does nothing. No other row changes. */
  lemma ChangeMeans(rows: seq<Row>, change: Change)
    ensures var rows' := Do(rows, change);
      var (tenant, key) := (change.tenant, change.key);
      if change.Cataloguing? || (change.Upload? && forall k: nat :: !CurrentAt(rows, tenant, key, k)) then
        rows' == rows + [Row(tenant, key, 1, true, [Catalogued(change.actor)])]
      else if forall k: nat :: !CurrentAt(rows, tenant, key, k) then
        rows' == rows
      else
        exists k: nat :: CurrentAt(rows, tenant, key, k)
          && (forall j: nat :: CurrentAt(rows, tenant, key, j) ==> rows[j].version <= rows[k].version)
          && |rows'| == |rows| + 1
          && (forall j :: 0 <= j < |rows| ==> rows'[j] == if j == k then rows[j].(current := false) else rows[j])
          && rows'[|rows|] == Row(tenant, key, rows[k].version + 1, true,
                                  rows[k].provenance + [Revised(change.actor, change.description, k)])
  {
    LatestCurrent(rows, change.tenant, change.key);
    match Latest(rows, change.tenant, change.key)
    case None =>
    case Some(k) => assert CurrentAt(rows, change.tenant, change.key, k);
  }

  function DoAll(changes: seq<Change>): seq<Row> {
    if changes == [] then [] else Do(DoAll(changes[..|changes| - 1]), changes[|changes| - 1])
  }

  /** The key was never catalogued anew while it had a current row. */
  predicate Clean(changes: seq<Change>, tenant: nat, key: string) {
    changes == []
    || (var n := |changes| - 1;
        && Clean(changes[..n], tenant, key)
        && !(changes[n].Cataloguing? && changes[n].On(tenant, key) && Latest(DoAll(changes[..n]), tenant, key).Some?))
  }

  lemma OthersKeepChain(rows: seq<Row>, change: Change, tenant: nat, key: string)
    requires Chain(rows, tenant, key) && !change.On(tenant, key)
    ensures Chain(Do(rows, change), tenant, key)
  {
    match Latest(rows, change.tenant, change.key)
    case Some(k) =>
      if change.Cataloguing? { AddedElsewhere(rows, change, tenant, key); }
      else { OtherChainsKept(rows, k, change.actor, change.description, tenant, key); }
    case None =>
      if !change.Revision? { AddedElsewhere(rows, change, tenant, key); }
  }

  lemma AddedElsewhere(rows: seq<Row>, change: Change, tenant: nat, key: string)
    requires Chain(rows, tenant, key) && !change.On(tenant, key)
    ensures Chain(Added(rows, change.tenant, change.key, change.actor), tenant, key)
  {
    OtherChainsKeptByAdd(rows, Row(change.tenant, change.key, 1, true, [Catalogued(change.actor)]), tenant, key);
  }

  lemma OwnKeepsChain(rows: seq<Row>, change: Change, tenant: nat, key: string)
    requires Chain(rows, tenant, key) && change.On(tenant, key)
    requires change.Cataloguing? ==> Latest(rows, tenant, key) == None
    ensures Chain(Do(rows, change), tenant, key)
  {
    LatestIsLast(rows, tenant, key);
    match Latest(rows, tenant, key)
    case None => if !change.Revision? { AddKeepsChainIffNew(rows, tenant, key, change.actor); }
    case Some(k) => SupersedeKeepsChain(rows, tenant, key, change.actor, change.description);
  }

  /** A row whose version is not its place in the sequence: nothing can mend that. */
  predicate Broken(rows: seq<Row>, tenant: nat, key: string) {
    var ps := Positions(rows, tenant, key);
    exists i :: 0 <= i < |ps| && rows[ps[i]].version != i + 1
  }

  lemma BrokenIsNoChain(rows: seq<Row>, tenant: nat, key: string)
    requires Broken(rows, tenant, key)
    ensures !Chain(rows, tenant, key)
  {
    var ps := Positions(rows, tenant, key);
    var i :| 0 <= i < |ps| && rows[ps[i]].version != i + 1;
    assert !Link(rows, ps, i);
  }

  /** Versions and their places never change. */
  predicate Grown(rows: seq<Row>, rows': seq<Row>, tenant: nat, key: string) {
    var ps, ps' := Positions(rows, tenant, key), Positions(rows', tenant, key);
    ps <= ps' && |rows| <= |rows'| && forall i :: 0 <= i < |rows| ==> rows'[i].version == rows[i].version
  }

  lemma AddedGrows(rows: seq<Row>, row: Row, tenant: nat, key: string)
    ensures Grown(rows, rows + [row], tenant, key)
  {
    AppendedPositions(rows, row, tenant, key);
  }

  lemma SupersededGrows(rows: seq<Row>, k: nat, actor: string, description: string, tenant: nat, key: string)
    requires k < |rows|
    ensures Grown(rows, Superseded(rows, k, actor, description), tenant, key)
  {
    SupersededPositions(rows, k, actor, description, tenant, key);
  }

  lemma DoGrows(rows: seq<Row>, change: Change, tenant: nat, key: string)
    ensures Grown(rows, Do(rows, change), tenant, key)
  {
    AddedGrows(rows, Row(change.tenant, change.key, 1, true, [Catalogued(change.actor)]), tenant, key);
    match Latest(rows, change.tenant, change.key)
    case None =>
    case Some(k) =>
      if !change.Cataloguing? { SupersededGrows(rows, k, change.actor, change.description, tenant, key); }
  }

  lemma BrokenStays(rows: seq<Row>, rows': seq<Row>, tenant: nat, key: string)
    requires Broken(rows, tenant, key) && Grown(rows, rows', tenant, key)
    ensures Broken(rows', tenant, key)
  {
    var ps, ps' := Positions(rows, tenant, key), Positions(rows', tenant, key);
    var i :| 0 <= i < |ps| && rows[ps[i]].version != i + 1;
    assert ps'[i] == ps[i];
  }

  lemma AddBreaks(rows: seq<Row>, tenant: nat, key: string, actor: string)
    requires Positions(rows, tenant, key) != []
    ensures Broken(Added(rows, tenant, key, actor), tenant, key)
  {
    var rows' := Added(rows, tenant, key, actor);
    AppendedPositions(rows, rows'[|rows|], tenant, key);
    var i := |Positions(rows, tenant, key)|;
    assert rows'[Positions(rows', tenant, key)[i]].version != i + 1;
  }

  lemma {:induction false} CleanOrBroken(changes: seq<Change>, tenant: nat, key: string)
    ensures if Clean(changes, tenant, key) then Chain(DoAll(changes), tenant, key) else Broken(DoAll(changes), tenant, key)
  {
    if changes != [] {
      var n := |changes| - 1;
      var rows, change := DoAll(changes[..n]), changes[n];
      CleanOrBroken(changes[..n], tenant, key);
      if !Clean(changes[..n], tenant, key) {
        DoGrows(rows, change, tenant, key);
        BrokenStays(rows, Do(rows, change), tenant, key);
      } else if !change.On(tenant, key) {
        OthersKeepChain(rows, change, tenant, key);
      } else if Clean(changes, tenant, key) {
        OwnKeepsChain(rows, change, tenant, key);
      } else {
        LatestIsLast(rows, tenant, key);
        AddBreaks(rows, tenant, key, change.actor);
      }
    }
  }

  /** After any series of uploads, revisions and plain cataloguings a key's versions are exactly 1..n, only
      the last current, each provenance extending the one before it by one entry - if and only if the key
      was never catalogued plainly while it had a current row. */
  lemma ChainIffClean(changes: seq<Change>, tenant: nat, key: string)
    ensures Chain(DoAll(changes), tenant, key) <==> Clean(changes, tenant, key)
  {
    CleanOrBroken(changes, tenant, key);
    if Broken(DoAll(changes), tenant, key) { BrokenIsNoChain(DoAll(changes), tenant, key); }
  }

  /** Areas of interest are only ever defined or revised by one operation, so theirs are always chains,
      with exactly one version per definition, and the active one is the last. */
  lemma {:induction false} DefinitionsAreChains(changes: seq<Change>, tenant: nat, assessment: string)
    requires forall i :: 0 <= i < |changes| ==> changes[i].Upload?
    ensures var rows := DoAll(changes);
      var ps := Positions(rows, tenant, assessment);
      && Chain(rows, tenant, assessment) && |ps| == Definitions(changes, tenant, assessment)
      && Latest(rows, tenant, assessment) == if ps == [] then None else Some(ps[|ps| - 1])
  {
    OnlyUploadsClean(changes, tenant, assessment);
    ChainIffClean(changes, tenant, assessment);
    LatestIsLast(DoAll(changes), tenant, assessment);
    if changes != [] {
      var n := |changes| - 1;
      DefinitionsAreChains(changes[..n], tenant, assessment);
      UploadAddsOne(DoAll(changes[..n]), changes[n], tenant, assessment);
    }
  }

  function Definitions(changes: seq<Change>, tenant: nat, key: string): nat {
    if changes == [] then 0
    else Definitions(changes[..|changes| - 1], tenant, key) + (if changes[|changes| - 1].On(tenant, key) then 1 else 0)
  }

  lemma {:induction false} OnlyUploadsClean(changes: seq<Change>, tenant: nat, key: string)
    requires forall i :: 0 <= i < |changes| ==> changes[i].Upload?
    ensures Clean(changes, tenant, key)
  {
    if changes != [] { OnlyUploadsClean(changes[..|changes| - 1], tenant, key); }
  }

  lemma UploadAddsOne(rows: seq<Row>, change: Change, tenant: nat, key: string)
    requires change.Upload?
    ensures |Positions(Do(rows, change), tenant, key)| == |Positions(rows, tenant, key)| + (if change.On(tenant, key) then 1 else 0)
  {
    match Latest(rows, change.tenant, change.key)
    case None => AppendedPositions(rows, Row(change.tenant, change.key, 1, true, [Catalogued(change.actor)]), tenant, key);
    case Some(k) => SupersededPositions(rows, k, change.actor, change.description, tenant, key);
  }
}
