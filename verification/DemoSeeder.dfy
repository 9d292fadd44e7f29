/** The demo seeder as a fixpoint computation (`service/src/demos.rs`). */
module DemoSeeder {
  import opened Wrappers
  import opened Folds

  type Id = string

  datatype Owner = NoOwner | BadOwner | OwnedBy(id: Id)

  /** A demo directory, as loading and parsing it would report it. `compiles`
      is everything compiling and uploading needs besides the child templates. */
  datatype Demo = Demo(
    name: string, loads: bool, id: Id,
    visibility: Option<string>, owner: Owner,
    kind: Option<string>, origin: Option<string>, coordinate: Option<string>, category: Option<string>,
    children: set<Id>, compiles: bool)

  /** A row of `workflow_templates`. `owner` is present for private templates. */
  datatype Row = Row(base: Option<Id>, latest: bool, published: bool, owner: Option<Id>,
                     origin: Option<string>, coordinate: Option<string>, inDemoWorkspace: bool, bySeeder: bool)

  type Rows = map<Id, Row>

  datatype SeedOutcome = AlreadyPresent | Seeded

  datatype SeedError =
    | LoadFailed
    | InvalidOwnerTemplateId
    | InvalidVisibility
    | PrivateMissingOwner
    | OwnerOnNonPrivate
    | MissingCoordinate
    | CoordinateConflict
    | MissingCategory
    | UnknownCategory
    | CompileFailed
    | Database

  datatype SeedResult = Ok(outcome: SeedOutcome) | Err(error: SeedError)

  const LIBRARY_CATEGORIES: set<string> :=
    {"Examples", "CFD", "FEA", "Micromagnetics", "Molecular Dynamics", "Quantum", "Bioinformatics",
     "ML", "Robotics", "Imaging", "Data", "Optimization", "Simulation"}

  // ---------------------------------------------------------------------
  // seed_one
  // ---------------------------------------------------------------------

  function Visibility(d: Demo): string {
    d.visibility.GetOr("public")
  }

  function Kind(d: Demo): string {
    if d.kind.Some? then d.kind.value else if Visibility(d) == "private" then "private_child" else "workflow"
  }

  predicate IsLibrary(d: Demo) {
    Kind(d) == "library_node"
  }

  function Origin(d: Demo): Option<string> {
    if IsLibrary(d) then Some(d.origin.GetOr("system")) else d.origin
  }

  /** Loading, and visibility against ownership: checked before anything else. */
  function Malformed(d: Demo): Option<SeedError> {
    if !d.loads then Some(LoadFailed)
    else if Visibility(d) == "workspace" || Visibility(d) == "public" then
      if d.owner.NoOwner? then None else Some(OwnerOnNonPrivate)
    else if Visibility(d) == "private" then
      match d.owner
      case NoOwner => Some(PrivateMissingOwner)
      case BadOwner => Some(InvalidOwnerTemplateId)
      case OwnedBy(_) => None
    else Some(InvalidVisibility)
  }

  /** A live row of another family already claims the demo's coordinate. */
  predicate Claims(row: Row, d: Demo) {
    && d.coordinate.Some? && row.coordinate == d.coordinate && row.origin == Some(Origin(d).GetOr("system"))
    && row.latest && row.base.Some? && row.base.value != d.id
  }

  /** The unique indexes on (origin, coordinate), and for git-managed rows on
      (workspace, coordinate), refuse the demo's row beside `row`. */
  predicate IndexTaken(row: Row, d: Demo) {
    && row.latest && d.coordinate.Some? && row.coordinate == d.coordinate
    && Origin(d).Some? && row.origin == Origin(d)
    && (Origin(d) == Some("gitops") ==> row.inDemoWorkspace)
  }

  /** `row` keeps the demo from being inserted, by either check. */
  predicate Blocks(row: Row, d: Demo) {
    IndexTaken(row, d) || (IsLibrary(d) && Claims(row, d))
  }

  function LibraryProblem(rows: Rows, d: Demo): Option<SeedError> {
    if !IsLibrary(d) then None
    else if d.coordinate.None? then Some(MissingCoordinate)
    else if exists id :: id in rows && Claims(rows[id], d) then Some(CoordinateConflict)
    else if d.category.None? then Some(MissingCategory)
    else if d.category.value !in LIBRARY_CATEGORIES then Some(UnknownCategory)
    else None
  }

  /** A row a demo may embed as a child: live, published, owned by it if private, not itself. */
  predicate Embeddable(child: Id, row: Row, d: Demo) {
    row.latest && row.published && (row.owner.Some? ==> row.owner.value == d.id) && child != d.id
  }

  predicate ChildrenReady(rows: Rows, d: Demo) {
    forall c :: c in d.children ==> c in rows && Embeddable(c, rows[c], d)
  }

  function SeedResultFor(rows: Rows, d: Demo): SeedResult {
    if Malformed(d).Some? then Err(Malformed(d).value)
    else if d.id in rows then Ok(AlreadyPresent)
    else if LibraryProblem(rows, d).Some? then Err(LibraryProblem(rows, d).value)
    else if !d.compiles || !ChildrenReady(rows, d) then Err(CompileFailed)
    else if exists id :: id in rows && IndexTaken(rows[id], d) then Err(Database)
    else Ok(Seeded)
  }

  function RowOf(d: Demo): Row {
    Row(Some(d.id), true, true, if d.owner.OwnedBy? then Some(d.owner.id) else None, Origin(d), d.coordinate, true,
        true)
  }

  function RowsAfter(rows: Rows, d: Demo): Rows {
    if SeedResultFor(rows, d) == Ok(Seeded) then rows[d.id := RowOf(d)] else rows
  }

  // ---------------------------------------------------------------------
  // When a demo is seeded, in terms of its fields and the rows
  // ---------------------------------------------------------------------

  /** The child may be embedded by `d`: a published, live row other than its own, and if it is
      private then private to `d`. */
  predicate Usable(rows: Rows, child: Id, d: Demo) {
    && child in rows && child != d.id && rows[child].published && rows[child].latest
    && (rows[child].owner == None || rows[child].owner == Some(d.id))
  }

  ghost predicate ChildrenUsable(rows: Rows, d: Demo) {
    forall c :: c in d.children ==> Usable(rows, c, d)
  }

  /** Public and workspace demos have no owner, private ones have one; nothing else exists. */
  predicate WellOwned(d: Demo) {
    || (d.visibility in {None, Some("public"), Some("workspace")} && d.owner == NoOwner)
    || (d.visibility == Some("private") && d.owner.OwnedBy?)
  }

  /** The row holds the coordinate live under this origin. */
  predicate Occupies(row: Row, origin: string, coordinate: string) {
    row.latest && row.origin == Some(origin) && row.coordinate == Some(coordinate)
  }

  /** A library node has a coordinate no other family occupies, and a known category. */
  ghost predicate GoodNode(rows: Rows, d: Demo) {
    && d.coordinate.Some? && d.category.Some? && d.category.value in LIBRARY_CATEGORIES
    && forall id :: id in rows && Occupies(rows[id], d.origin.GetOr("system"), d.coordinate.value) ==>
         rows[id].base == None || rows[id].base == Some(d.id)
  }

  /** The unique indexes accept the demo's row: nothing live has its origin and coordinate,
      where git-managed rows of other workspaces do not count. */
  ghost predicate IndexFree(rows: Rows, d: Demo) {
    d.coordinate.Some? ==>
      && (d.kind == Some("library_node") && d.origin == None ==>
            forall id :: id in rows ==> !Occupies(rows[id], "system", d.coordinate.value))
      && (d.origin.Some? ==>
            forall id :: id in rows && Occupies(rows[id], d.origin.value, d.coordinate.value) ==>
              d.origin.value == "gitops" && !rows[id].inDemoWorkspace)
  }

  /** In order, apart from its children. */
  ghost predicate Buildable(rows: Rows, d: Demo) {
    && d.loads && d.compiles && WellOwned(d) && IndexFree(rows, d)
    && (d.kind == Some("library_node") ==> GoodNode(rows, d))
  }

  lemma VisibilityIff(d: Demo)
    ensures Malformed(d).None? <==> d.loads && WellOwned(d)
  {
    assert "private" != "workspace" && "private" != "public" && "workspace" != "public";
  }

  lemma LibraryIff(d: Demo)
    ensures IsLibrary(d) <==> d.kind == Some("library_node")
  {
    assert "private_child" != "library_node" && "workflow" != "library_node";
  }

  lemma IndexIff(rows: Rows, d: Demo)
    ensures IndexFree(rows, d) <==> !exists id :: id in rows && IndexTaken(rows[id], d)
  {
    LibraryIff(d);
    assert "gitops" != "system";
    forall id | id in rows
      ensures IndexTaken(rows[id], d) <==>
              && d.coordinate.Some? && Origin(d).Some? && Occupies(rows[id], Origin(d).value, d.coordinate.value)
              && (Origin(d).value == "gitops" ==> rows[id].inDemoWorkspace)
    {
    }
  }

  lemma NodeIff(rows: Rows, d: Demo)
    ensures LibraryProblem(rows, d).None? <==> (d.kind == Some("library_node") ==> GoodNode(rows, d))
  {
    LibraryIff(d);
    forall id | id in rows && d.coordinate.Some? && IsLibrary(d)
      ensures Claims(rows[id], d) <==> Occupies(rows[id], d.origin.GetOr("system"), d.coordinate.value) &&
                                       !(rows[id].base == None || rows[id].base == Some(d.id))
    {
    }
  }

  lemma SoundIff(rows: Rows, d: Demo)
    ensures SoundDemo(rows, d) <==> Buildable(rows, d)
  {
    VisibilityIff(d);
    NodeIff(rows, d);
    IndexIff(rows, d);
  }

  /** A call seeds a demo if and only if its id is new, it is in order, and every child is a
      published row it may embed; it reports it as present if and only if it is well formed
      and its id is there. */
  lemma SeededIff(rows: Rows, d: Demo)
    ensures SeedResultFor(rows, d) == Ok(Seeded) <==> d.id !in rows && Buildable(rows, d) && ChildrenUsable(rows, d)
    ensures SeedResultFor(rows, d) == Ok(AlreadyPresent) <==> d.id in rows && d.loads && WellOwned(d)
  {
    VisibilityIff(d);
    SoundIff(rows, d);
    assert ChildrenReady(rows, d) <==> ChildrenUsable(rows, d);
  }

  /** The row it writes: published and live under the demo's own id, written by the seeder,
      private to its owner if the demo is. The next call finds it, and a demo may embed it
      unless it is that demo itself or belongs to another owner. */
  lemma SeededIsUsable(rows: Rows, a: Demo, b: Demo)
    requires SeedResultFor(rows, a) == Ok(Seeded)
    ensures SeedResultFor(RowsAfter(rows, a), a) == Ok(AlreadyPresent) &&
            RowsAfter(RowsAfter(rows, a), a) == RowsAfter(rows, a)
    ensures RowsAfter(rows, a).Keys == rows.Keys + {a.id}
    ensures var row := RowsAfter(rows, a)[a.id];
            && row.base == Some(a.id) && row.bySeeder && row.inDemoWorkspace && row.coordinate == a.coordinate
            && (a.origin.Some? ==> row.origin == a.origin)
            && (a.origin.None? ==> row.origin == if a.kind == Some("library_node") then Some("system") else None)
    ensures Usable(RowsAfter(rows, a), a.id, b) <==>
            a.id != b.id && (a.visibility == Some("private") ==> a.owner == OwnedBy(b.id))
  {
    LibraryIff(a);
    VisibilityIff(a);
  }

  // ---------------------------------------------------------------------
  // The fixpoint
  // ---------------------------------------------------------------------

  predicate DistinctIds(dirs: seq<Demo>) {
    forall i, j :: 0 <= i < j < |dirs| ==> dirs[i].id != dirs[j].id
  }

  /** No demo's coordinate is taken by another demo's row. */
  predicate NoClash(dirs: seq<Demo>) {
    forall d, e :: d in dirs && e in dirs && d.id != e.id ==> !Blocks(RowOf(e), d)
  }

  /** The row an id has once it is published, by the start or by its demo. */
  ghost predicate RowIs(dirs: seq<Demo>, init: Rows, id: Id, row: Row) {
    if id in init then row == init[id] else exists d :: d in dirs && d.id == id && Malformed(d).None? && row == RowOf(d)
  }

  ghost predicate EmbeddableChild(dirs: seq<Demo>, init: Rows, c: Id, d: Demo) {
    exists row :: RowIs(dirs, init, c, row) && Embeddable(c, row, d)
  }

  /** The demo is in order, apart from its children being published. */
  predicate SoundDemo(init: Rows, d: Demo) {
    && Malformed(d).None? && LibraryProblem(init, d).None? && d.compiles
    && !exists id :: id in init && IndexTaken(init[id], d)
  }

  /** A sound demo all of whose children are published and may be embedded. */
  ghost predicate Derivable(dirs: seq<Demo>, init: Rows, p: set<Id>, d: Demo) {
    SoundDemo(init, d) && forall c :: c in d.children ==> c in p && EmbeddableChild(dirs, init, c, d)
  }

  /** `p` contains the start and every demo derivable from it. */
  ghost predicate Closed(dirs: seq<Demo>, init: Rows, p: set<Id>) {
    && init.Keys <= p
    && forall d :: d in dirs && Derivable(dirs, init, p, d) ==> d.id in p
  }

  ghost predicate IsLeastFixpoint(dirs: seq<Demo>, init: Rows, p: set<Id>) {
    Closed(dirs, init, p) && forall q: set<Id> :: Closed(dirs, init, q) ==> p <= q
  }

  /** The rows of a seeding in progress. */
  ghost predicate InProgress(dirs: seq<Demo>, init: Rows, rows: Rows) {
    && init.Keys <= rows.Keys
    && (forall id :: id in rows ==> RowIs(dirs, init, id, rows[id]))
    && (forall q: set<Id> :: Closed(dirs, init, q) ==> rows.Keys <= q)
  }

  /** Rows are determined by their id when demo ids are distinct. */
  lemma RowUnique(dirs: seq<Demo>, init: Rows, id: Id, a: Row, b: Row)
    requires DistinctIds(dirs) && RowIs(dirs, init, id, a) && RowIs(dirs, init, id, b)
    ensures a == b
  {
  }

  /** Seeding other demos never blocks a demo. */
  lemma ProblemsStable(dirs: seq<Demo>, init: Rows, rows: Rows, d: Demo)
    requires NoClash(dirs) && InProgress(dirs, init, rows) && d in dirs && d.id !in rows
    ensures LibraryProblem(rows, d) == LibraryProblem(init, d)
    ensures (exists id :: id in rows && IndexTaken(rows[id], d)) <==>
            (exists id :: id in init && IndexTaken(init[id], d))
  {
    forall id | id in rows && Blocks(rows[id], d) ensures id in init && init[id] == rows[id] {
      assert RowIs(dirs, init, id, rows[id]);
    }
    forall id | id in init ensures id in rows && init[id] == rows[id] {
      assert RowIs(dirs, init, id, rows[id]);
    }
  }

  lemma ChildrenReadyIff(dirs: seq<Demo>, init: Rows, rows: Rows, d: Demo, c: Id)
    requires DistinctIds(dirs) && InProgress(dirs, init, rows)
    ensures c in rows && Embeddable(c, rows[c], d) <==> c in rows && EmbeddableChild(dirs, init, c, d)
  {
    if c in rows {
      assert RowIs(dirs, init, c, rows[c]);
      if row :| RowIs(dirs, init, c, row) && Embeddable(c, row, d) {
        RowUnique(dirs, init, c, row, rows[c]);
      }
    }
  }

  /** One call keeps the rows inside every closed set. */
  lemma SeedOneInProgress(dirs: seq<Demo>, init: Rows, rows: Rows, d: Demo)
    requires DistinctIds(dirs) && NoClash(dirs) && InProgress(dirs, init, rows) && d in dirs
    ensures InProgress(dirs, init, RowsAfter(rows, d))
  {
    if SeedResultFor(rows, d) == Ok(Seeded) {
      forall q: set<Id> | Closed(dirs, init, q) ensures d.id in q {
        SeededInClosed(dirs, init, rows, d, q);
      }
      InProgressGrows(dirs, init, rows, d.id, RowOf(d));
    }
  }

  lemma InProgressGrows(dirs: seq<Demo>, init: Rows, rows: Rows, id: Id, row: Row)
    requires InProgress(dirs, init, rows) && RowIs(dirs, init, id, row)
    requires forall q: set<Id> :: Closed(dirs, init, q) ==> id in q
    ensures InProgress(dirs, init, rows[id := row])
  {
    var after := rows[id := row];
    forall x | x in after ensures RowIs(dirs, init, x, after[x]) {
      assert x != id ==> RowIs(dirs, init, x, rows[x]);
    }
    assert after.Keys == rows.Keys + {id};
  }

  lemma SeededInClosed(dirs: seq<Demo>, init: Rows, rows: Rows, d: Demo, q: set<Id>)
    requires DistinctIds(dirs) && NoClash(dirs) && InProgress(dirs, init, rows) && d in dirs
    requires SeedResultFor(rows, d) == Ok(Seeded) && Closed(dirs, init, q)
    ensures d.id in q
  {
    ProblemsStable(dirs, init, rows, d);
    forall c | c in d.children ensures c in q && EmbeddableChild(dirs, init, c, d) {
      ChildrenReadyIff(dirs, init, rows, d, c);
      assert rows.Keys <= q;
    }
    assert Derivable(dirs, init, q, d);
  }

  /** When every demo has either been published or fails on the present rows,
      the rows are closed. */
  lemma StuckIsClosed(dirs: seq<Demo>, init: Rows, rows: Rows)
    requires DistinctIds(dirs) && NoClash(dirs) && InProgress(dirs, init, rows)
    requires forall d :: d in dirs ==> d.id in rows || SeedResultFor(rows, d).Err?
    ensures IsLeastFixpoint(dirs, init, rows.Keys)
  {
    forall d | d in dirs && Derivable(dirs, init, rows.Keys, d) ensures d.id in rows {
      if d.id !in rows {
        ProblemsStable(dirs, init, rows, d);
        forall c | c in d.children ensures c in rows && Embeddable(c, rows[c], d) {
          ChildrenReadyIff(dirs, init, rows, d, c);
        }
      }
    }
  }

  /** What ends up published is derivable from what ends up published. */
  lemma NewIsDerivable(dirs: seq<Demo>, init: Rows, p: set<Id>, d: Demo)
    requires DistinctIds(dirs) && IsLeastFixpoint(dirs, init, p) && d in dirs && d.id in p && d.id !in init
    ensures Derivable(dirs, init, p, d)
  {
    if !Derivable(dirs, init, p, d) {
      var q := p - {d.id};
      forall e | e in dirs && Derivable(dirs, init, q, e) ensures e.id in q {
        assert Derivable(dirs, init, p, e);
      }
      assert Closed(dirs, init, q);
    }
  }

  /** A demo whose id is new ends up published if and only if it is in order and every child
      ended up as a published row it may embed. */
  lemma PublishedIff(dirs: seq<Demo>, init: Rows, rows: Rows, d: Demo)
    requires DistinctIds(dirs) && InProgress(dirs, init, rows) && IsLeastFixpoint(dirs, init, rows.Keys)
    requires d in dirs && d.id !in init
    ensures d.id in rows <==> Buildable(init, d) && ChildrenUsable(rows, d)
  {
    SoundIff(init, d);
    forall c ensures Usable(rows, c, d) <==> c in rows && EmbeddableChild(dirs, init, c, d) {
      ChildrenReadyIff(dirs, init, rows, d, c);
    }
    if d.id in rows {
      assert d.id in rows.Keys;
      NewIsDerivable(dirs, init, rows.Keys, d);
    } else if Buildable(init, d) && ChildrenUsable(rows, d) {
      assert Derivable(dirs, init, rows.Keys, d);
    }
  }

  /** A least fixpoint does not depend on the order of the directories. */
  lemma SameFixpoint(dirs: seq<Demo>, dirs': seq<Demo>, init: Rows, p: set<Id>, p': set<Id>)
    requires forall d :: d in dirs <==> d in dirs'
    requires IsLeastFixpoint(dirs, init, p) && IsLeastFixpoint(dirs', init, p')
    ensures p == p'
  {
    forall q: set<Id> ensures Closed(dirs, init, q) <==> Closed(dirs', init, q) {
      forall c, d ensures EmbeddableChild(dirs, init, c, d) <==> EmbeddableChild(dirs', init, c, d) {
        forall row ensures RowIs(dirs, init, c, row) <==> RowIs(dirs', init, c, row) {
        }
      }
    }
  }

  /** Directory order is irrelevant: seeding the same demos in two orders, from the same
      rows, ends in the same rows. */
  lemma OrderIrrelevant(dirs: seq<Demo>, dirs': seq<Demo>, init: Rows, rows: Rows, rows': Rows)
    requires DistinctIds(dirs) && forall d :: d in dirs <==> d in dirs'
    requires InProgress(dirs, init, rows) && IsLeastFixpoint(dirs, init, rows.Keys)
    requires InProgress(dirs', init, rows') && IsLeastFixpoint(dirs', init, rows'.Keys)
    ensures rows == rows'
  {
    SameFixpoint(dirs, dirs', init, rows.Keys, rows'.Keys);
    forall id | id in rows ensures id in rows' && rows[id] == rows'[id] {
      assert id in rows.Keys && id in rows'.Keys;
      assert RowIs(dirs, init, id, rows[id]) && RowIs(dirs', init, id, rows'[id]);
      assert RowIs(dirs, init, id, rows'[id]);
      RowUnique(dirs, init, id, rows[id], rows'[id]);
    }
  }

  /** Two demos that are both ready commute exactly when neither row blocks
      the other, which is what `NoClash` asks for: with a clash the order shows. */
  lemma CommuteIff(rows: Rows, a: Demo, b: Demo)
    requires SeedResultFor(rows, a) == Ok(Seeded) && SeedResultFor(rows, b) == Ok(Seeded) && a.id != b.id
    ensures RowsAfter(RowsAfter(rows, a), b) == RowsAfter(RowsAfter(rows, b), a)
            <==> !Blocks(RowOf(a), b) && !Blocks(RowOf(b), a)
  {
    ReadyAfter(rows, a, b);
    ReadyAfter(rows, b, a);
    if !Blocks(RowOf(a), b) && !Blocks(RowOf(b), a) {
      assert RowsAfter(RowsAfter(rows, a), b) == rows[a.id := RowOf(a)][b.id := RowOf(b)];
    } else if Blocks(RowOf(a), b) {
      assert b.id !in RowsAfter(RowsAfter(rows, a), b);
      assert b.id in RowsAfter(RowsAfter(rows, b), a);
    } else {
      assert a.id !in RowsAfter(RowsAfter(rows, b), a);
      assert a.id in RowsAfter(RowsAfter(rows, a), b);
    }
  }

  lemma ReadyAfter(rows: Rows, a: Demo, b: Demo)
    requires SeedResultFor(rows, a) == Ok(Seeded) && SeedResultFor(rows, b) == Ok(Seeded) && a.id != b.id
    ensures SeedResultFor(RowsAfter(rows, a), b) == Ok(Seeded) <==> !Blocks(RowOf(a), b)
    ensures b.id !in RowsAfter(rows, a)
  {
    var after := RowsAfter(rows, a);
    assert a.id in after && after[a.id] == RowOf(a);
    forall id | id in after && id != a.id ensures id in rows && after[id] == rows[id] {
    }
  }

  // ---------------------------------------------------------------------
  // seed_all
  // ---------------------------------------------------------------------

  function Triangle(n: nat): nat {
    if n == 0 then 0 else n + Triangle(n - 1)
  }

  lemma {:induction false} TriangleClosed(n: nat)
    ensures 2 * Triangle(n) == n * (n + 1)
  {
    if n > 0 {
      TriangleClosed(n - 1);
    }
  }

  lemma {:induction false} TriangleMonotone(m: nat, n: nat)
    requires m <= n
    ensures Triangle(m) <= Triangle(n)
  {
    if m < n {
      TriangleMonotone(m, n - 1);
    }
  }

  /** Demos still to be tried: distinct, and not published unless they were at the start. */
  ghost predicate IsPending(dirs: seq<Demo>, init: Rows, rows: Rows, pending: seq<Demo>) {
    DistinctIds(pending) && forall k :: 0 <= k < |pending| ==>
        pending[k] in dirs && (pending[k].id in rows ==> pending[k].id in init)
  }

  /** A reported success: well formed, published, and `Seeded` exactly when it is new. */
  predicate IsSuccess(init: Rows, rows: Rows, s: (Demo, SeedOutcome)) {
    Malformed(s.0).None? && s.0.id in rows && (s.1.Seeded? <==> s.0.id !in init)
  }

  ghost predicate AllSucceeded(init: Rows, rows: Rows, succeeded: seq<(Demo, SeedOutcome)>) {
    forall k :: 0 <= k < |succeeded| ==> IsSuccess(init, rows, succeeded[k])
  }

  /** The reported demos are there, and what was seeded embeds published children only. */
  ghost predicate AllPublished(rows: Rows, succeeded: seq<(Demo, SeedOutcome)>) {
    forall k :: 0 <= k < |succeeded| ==>
      && succeeded[k].0.id in rows && Malformed(succeeded[k].0).None?
      && (succeeded[k].1.Seeded? ==> ChildrenUsable(rows, succeeded[k].0))
  }

  ghost predicate AllFail(rows: Rows, tried: seq<Demo>) {
    forall k :: 0 <= k < |tried| ==> SeedResultFor(rows, tried[k]).Err?
  }

  function Demos(succeeded: seq<(Demo, SeedOutcome)>): (ds: seq<Demo>)
    ensures |ds| == |succeeded|
    ensures forall k :: 0 <= k < |ds| ==> ds[k] == succeeded[k].0
  {
    seq(|succeeded|, k requires 0 <= k < |succeeded| => succeeded[k].0)
  }

  /** Every tried demo is either reported or kept, exactly once. */
  predicate Split(tried: seq<Demo>, succeeded: seq<(Demo, SeedOutcome)>, failed: seq<Demo>) {
    multiset(tried) == multiset(Demos(succeeded)) + multiset(failed)
  }

  lemma SplitOk(tried: seq<Demo>, succeeded: seq<(Demo, SeedOutcome)>, failed: seq<Demo>, d: Demo, o: SeedOutcome)
    requires Split(tried, succeeded, failed)
    ensures Split(tried + [d], succeeded + [(d, o)], failed)
  {
    assert Demos(succeeded + [(d, o)]) == Demos(succeeded) + [d];
  }

  lemma SplitErr(tried: seq<Demo>, succeeded: seq<(Demo, SeedOutcome)>, failed: seq<Demo>, d: Demo)
    requires Split(tried, succeeded, failed)
    ensures Split(tried + [d], succeeded, failed + [d])
  {
  }

  lemma PendingDrop(dirs: seq<Demo>, init: Rows, rows: Rows, rows': Rows, a: seq<Demo>, d: Demo, b: seq<Demo>)
    requires IsPending(dirs, init, rows, a + ([d] + b))
    requires forall id :: id in rows' ==> id in rows || id == d.id
    ensures IsPending(dirs, init, rows', a + b)
  {
    var all, rest := a + ([d] + b), a + b;
    forall k | 0 <= k < |rest| ensures rest[k] == all[if k < |a| then k else k + 1] {
    }
    assert all[|a|] == d;
  }

  /** The directories have distinct ids and no two of them fight over a coordinate. */
  ghost predicate Coherent(dirs: seq<Demo>) {
    DistinctIds(dirs) && NoClash(dirs)
  }

  /** No row is changed or removed. */
  ghost predicate Extends(start: Rows, rows: Rows) {
    forall id :: id in start ==> id in rows && rows[id] == start[id]
  }

  /** The part of the invariants that needs coherent directories. */
  ghost predicate Tracks(dirs: seq<Demo>, init: Rows, rows: Rows, pending: seq<Demo>,
                         succeeded: seq<(Demo, SeedOutcome)>) {
    InProgress(dirs, init, rows) && IsPending(dirs, init, rows, pending) && AllSucceeded(init, rows, succeeded)
  }

  /** What holds after the first `i` calls of a pass that started from `start`. */
  ghost predicate PassInv(dirs: seq<Demo>, init: Rows, start: Rows, rows: Rows, pending: seq<Demo>, i: nat,
                          succeeded: seq<(Demo, SeedOutcome)>, failed: seq<Demo>)
    requires i <= |pending|
  {
    && (Coherent(dirs) ==> Tracks(dirs, init, rows, failed + pending[i..], succeeded))
    && Extends(start, rows)
    && Split(pending[..i], succeeded, failed)
    && AllPublished(rows, succeeded)
    && |succeeded| + |failed| == i
    && (succeeded == [] ==> rows == start && AllFail(rows, pending[..i]))
  }

  lemma PassStart(dirs: seq<Demo>, init: Rows, rows: Rows, pending: seq<Demo>)
    requires Coherent(dirs) ==> Tracks(dirs, init, rows, pending, [])
    ensures PassInv(dirs, init, rows, rows, pending, 0, [], [])
  {
    assert Demos([]) == [] && [] + pending[0..] == pending;
  }

  lemma PassOk(dirs: seq<Demo>, init: Rows, start: Rows, rows: Rows, pending: seq<Demo>, i: nat,
               succeeded: seq<(Demo, SeedOutcome)>, failed: seq<Demo>)
    requires i < |pending|
    requires PassInv(dirs, init, start, rows, pending, i, succeeded, failed)
    requires SeedResultFor(rows, pending[i]).Ok?
    ensures PassInv(dirs, init, start, RowsAfter(rows, pending[i]), pending, i + 1,
                    succeeded + [(pending[i], SeedResultFor(rows, pending[i]).outcome)], failed)
  {
    var d, r := pending[i], SeedResultFor(rows, pending[i]);
    if Coherent(dirs) {
      TracksOk(dirs, init, rows, pending, i, succeeded, failed);
    }
    assert pending[..i + 1] == pending[..i] + [d];
    SplitOk(pending[..i], succeeded, failed, d, r.outcome);
  }

  lemma TracksOk(dirs: seq<Demo>, init: Rows, rows: Rows, pending: seq<Demo>, i: nat,
                 succeeded: seq<(Demo, SeedOutcome)>, failed: seq<Demo>)
    requires Coherent(dirs) && i < |pending|
    requires Tracks(dirs, init, rows, failed + pending[i..], succeeded)
    requires SeedResultFor(rows, pending[i]).Ok?
    ensures Tracks(dirs, init, RowsAfter(rows, pending[i]), failed + pending[i + 1..],
                   succeeded + [(pending[i], SeedResultFor(rows, pending[i]).outcome)])
  {
    var d, all := pending[i], failed + pending[i..];
    assert all[|failed|] == d;
    SeedOneInProgress(dirs, init, rows, d);
    assert pending[i..] == [d] + pending[i + 1..];
    PendingDrop(dirs, init, rows, RowsAfter(rows, d), failed, d, pending[i + 1..]);
    SucceededAppend(init, rows, succeeded, d);
  }

  lemma PassErr(dirs: seq<Demo>, init: Rows, start: Rows, rows: Rows, pending: seq<Demo>, i: nat,
                succeeded: seq<(Demo, SeedOutcome)>, failed: seq<Demo>)
    requires i < |pending|
    requires PassInv(dirs, init, start, rows, pending, i, succeeded, failed)
    requires SeedResultFor(rows, pending[i]).Err?
    ensures PassInv(dirs, init, start, rows, pending, i + 1, succeeded, failed + [pending[i]])
  {
    var d := pending[i];
    assert failed + pending[i..] == failed + [d] + pending[i + 1..];
    assert pending[..i + 1] == pending[..i] + [d];
    SplitErr(pending[..i], succeeded, failed, d);
  }

  lemma PassStep(dirs: seq<Demo>, init: Rows, start: Rows, rows: Rows, pending: seq<Demo>, i: nat,
                 succeeded: seq<(Demo, SeedOutcome)>, failed: seq<Demo>)
    requires i < |pending|
    requires PassInv(dirs, init, start, rows, pending, i, succeeded, failed)
    ensures SeedResultFor(rows, pending[i]).Ok? ==>
              PassInv(dirs, init, start, RowsAfter(rows, pending[i]), pending, i + 1,
                      succeeded + [(pending[i], SeedResultFor(rows, pending[i]).outcome)], failed)
    ensures SeedResultFor(rows, pending[i]).Err? ==>
              PassInv(dirs, init, start, RowsAfter(rows, pending[i]), pending, i + 1, succeeded, failed + [pending[i]])
  {
    if SeedResultFor(rows, pending[i]).Ok? {
      PassOk(dirs, init, start, rows, pending, i, succeeded, failed);
    } else {
      PassErr(dirs, init, start, rows, pending, i, succeeded, failed);
    }
  }

  lemma SucceededAppend(init: Rows, rows: Rows, succeeded: seq<(Demo, SeedOutcome)>, d: Demo)
    requires AllSucceeded(init, rows, succeeded) && init.Keys <= rows.Keys
    requires SeedResultFor(rows, d).Ok? && (d.id in rows ==> d.id in init)
    ensures AllSucceeded(init, RowsAfter(rows, d), succeeded + [(d, SeedResultFor(rows, d).outcome)])
  {
  }

  lemma PassEnd(dirs: seq<Demo>, init: Rows, start: Rows, rows: Rows, pending: seq<Demo>,
                succeeded: seq<(Demo, SeedOutcome)>, failed: seq<Demo>)
    requires PassInv(dirs, init, start, rows, pending, |pending|, succeeded, failed)
    ensures Coherent(dirs) ==> Tracks(dirs, init, rows, failed, succeeded)
    ensures Split(pending, succeeded, failed)
    ensures succeeded == [] ==> rows == start && AllFail(rows, pending)
  {
    assert pending[..|pending|] == pending && failed + pending[|pending|..] == failed;
  }

  // ---------------------------------------------------------------------
  // The run of seed_all over its passes
  // ---------------------------------------------------------------------

  /** What holds between passes: every directory is reported or pending, exactly once. */
  ghost predicate RunInv(dirs: seq<Demo>, init: Rows, rows: Rows, results: seq<(Demo, SeedOutcome)>,
                         pending: seq<Demo>) {
    && (Coherent(dirs) ==> Tracks(dirs, init, rows, pending, results))
    && Extends(init, rows)
    && Split(dirs, results, pending)
    && AllPublished(rows, results)
  }

  lemma RunStart(dirs: seq<Demo>, init: Rows)
    ensures RunInv(dirs, init, init, [], dirs)
  {
    assert Demos([]) == [];
  }

  lemma RunPass(dirs: seq<Demo>, init: Rows, start: Rows, rows: Rows, results: seq<(Demo, SeedOutcome)>,
                pending: seq<Demo>,
                succeeded: seq<(Demo, SeedOutcome)>, failed: seq<Demo>)
    requires RunInv(dirs, init, start, results, pending)
    requires PassInv(dirs, init, start, rows, pending, |pending|, succeeded, failed)
    ensures RunInv(dirs, init, rows, results + succeeded, failed)
  {
    PassEnd(dirs, init, start, rows, pending, succeeded, failed);
    SplitTwice(dirs, results, pending, succeeded, failed);
    PublishedConcat(start, rows, results, succeeded);
    if Coherent(dirs) {
      SucceededConcat(init, start, rows, results, succeeded);
    }
  }

  lemma SplitTwice(dirs: seq<Demo>, results: seq<(Demo, SeedOutcome)>, pending: seq<Demo>,
                   succeeded: seq<(Demo, SeedOutcome)>, failed: seq<Demo>)
    requires Split(dirs, results, pending) && Split(pending, succeeded, failed)
    ensures Split(dirs, results + succeeded, failed)
  {
    assert Demos(results + succeeded) == Demos(results) + Demos(succeeded);
  }

  lemma PublishedConcat(start: Rows, rows: Rows, results: seq<(Demo, SeedOutcome)>, succeeded: seq<(Demo, SeedOutcome)>)
    requires AllPublished(start, results) && Extends(start, rows) && AllPublished(rows, succeeded)
    ensures AllPublished(rows, results + succeeded)
  {
  }

  lemma SucceededConcat(init: Rows, start: Rows, rows: Rows, results: seq<(Demo, SeedOutcome)>,
                        succeeded: seq<(Demo, SeedOutcome)>)
    requires AllSucceeded(init, start, results) && Extends(start, rows) && AllSucceeded(init, rows, succeeded)
    ensures AllSucceeded(init, rows, results + succeeded)
  {
    forall k | 0 <= k < |results + succeeded| ensures IsSuccess(init, rows, (results + succeeded)[k]) {
      if k < |results| {
        assert IsSuccess(init, start, results[k]);
      } else {
        assert IsSuccess(init, rows, succeeded[k - |results|]);
      }
    }
  }

  /** When the last pass reports nothing, or nothing is left, the run has computed the
      least fixpoint and reported exactly the demos it should. */
  lemma RunEnd(dirs: seq<Demo>, init: Rows, rows: Rows, results: seq<(Demo, SeedOutcome)>, pending: seq<Demo>)
    requires RunInv(dirs, init, rows, results, pending)
    requires AllFail(rows, pending)
    ensures Coherent(dirs) ==>
            IsLeastFixpoint(dirs, init, rows.Keys) && InProgress(dirs, init, rows) && AllSucceeded(init, rows, results)
    ensures DistinctIds(dirs) ==> IsReport(dirs, rows, results)
  {
    ReportedOrFailing(dirs, init, rows, results, pending);
    if Coherent(dirs) {
      StuckIsClosed(dirs, init, rows);
    }
    if DistinctIds(dirs) {
      forall i, j | 0 <= i < j < |results| ensures results[i].0.id != results[j].0.id {
        OncePerDirectory(dirs, Demos(results), pending, i, j);
      }
    }
  }

  lemma ReportedOrFailing(dirs: seq<Demo>, init: Rows, rows: Rows, results: seq<(Demo, SeedOutcome)>,
                          pending: seq<Demo>)
    requires RunInv(dirs, init, rows, results, pending) && AllFail(rows, pending)
    ensures forall d :: d in dirs ==> (d in Demos(results) <==> SeedResultFor(rows, d).Ok?)
    ensures forall k :: 0 <= k < |results| ==> results[k].0 in dirs && IsReported(rows, results[k].0)
  {
    forall d | d in dirs ensures d in Demos(results) <==> SeedResultFor(rows, d).Ok? {
      assert d in multiset(dirs);
      assert d in multiset(Demos(results)) || d in multiset(pending);
      if d in Demos(results) {
        var k :| 0 <= k < |results| && Demos(results)[k] == d;
        assert results[k].0.id in rows;
      }
    }
    forall k | 0 <= k < |results| ensures results[k].0 in dirs && IsReported(rows, results[k].0) {
      assert Demos(results)[k] in multiset(Demos(results));
      assert results[k].0 in multiset(dirs);
    }
  }

  /** A part of distinct directories is distinct. */
  lemma OncePerDirectory(dirs: seq<Demo>, reported: seq<Demo>, pending: seq<Demo>, i: nat, j: nat)
    requires DistinctIds(dirs) && multiset(dirs) == multiset(reported) + multiset(pending)
    requires i < j < |reported|
    ensures reported[i].id != reported[j].id
  {
    assert reported[i] in multiset(dirs) && reported[j] in multiset(dirs);
    if reported[i] == reported[j] {
      CountsTwice(reported, i, j);
      AtMostOnce(dirs, reported[i]);
    }
  }

  lemma CountsTwice(s: seq<Demo>, i: nat, j: nat)
    requires i < j < |s| && s[i] == s[j]
    ensures multiset(s)[s[i]] >= 2
  {
    assert s == s[..j] + [s[j]] + s[j + 1..];
    assert s[i] in s[..j];
  }

  lemma {:induction false} AtMostOnce(s: seq<Demo>, d: Demo)
    requires DistinctIds(s)
    ensures multiset(s)[d] <= 1
  {
    if s != [] {
      var n := |s| - 1;
      AtMostOnce(s[..n], d);
      assert s == s[..n] + [s[n]];
    }
  }

  /** Published, and in order apart from that. */
  predicate IsReported(rows: Rows, d: Demo) {
    d.id in rows && Malformed(d).None?
  }

  /** The results list: the well-formed directories whose id ended up published,
      each exactly once; every other directory fails on the final rows too. */
  ghost predicate IsReport(dirs: seq<Demo>, rows: Rows, results: seq<(Demo, SeedOutcome)>) {
    && (forall d :: d in dirs ==> (d in Demos(results) <==> SeedResultFor(rows, d).Ok?))
    && (forall k :: 0 <= k < |results| ==> results[k].0 in dirs && IsReported(rows, results[k].0))
    && (forall i, j :: 0 <= i < j < |results| ==> results[i].0.id != results[j].0.id)
  }

  /** Of the new demos exactly those in order, with published children only, are reported. */
  lemma ReportedIff(dirs: seq<Demo>, init: Rows, rows: Rows, results: seq<(Demo, SeedOutcome)>)
    requires DistinctIds(dirs) && InProgress(dirs, init, rows) && IsLeastFixpoint(dirs, init, rows.Keys)
    requires IsReport(dirs, rows, results)
    ensures forall d :: d in dirs && d.id !in init ==>
              (d in Demos(results) <==> Buildable(init, d) && ChildrenUsable(rows, d))
  {
    forall d | d in dirs && d.id !in init
      ensures d in Demos(results) <==> Buildable(init, d) && ChildrenUsable(rows, d)
    {
      PublishedIff(dirs, init, rows, d);
      VisibilityIff(d);
      if d in Demos(results) {
        var k :| 0 <= k < |results| && Demos(results)[k] == d;
        assert IsReported(rows, results[k].0);
      }
    }
  }

  class Seeder {
    var rows: Rows
    /** `workflow_instances`: the template of each instance. */
    var instances: map<Id, Id>

    /** `seed_one`. */
    method SeedOne(d: Demo) returns (r: SeedResult)
      modifies this`rows
      ensures r == SeedResultFor(old(rows), d)
      ensures rows == RowsAfter(old(rows), d)
    {
      r := SeedResultFor(rows, d);
      if r == Ok(Seeded) {
        rows := rows[d.id := RowOf(d)];
      }
    }

    /** One pass over `pending`, in order. */
    method Pass(ghost dirs: seq<Demo>, ghost init: Rows, pending: seq<Demo>)
      returns (succeeded: seq<(Demo, SeedOutcome)>, stillFailed: seq<Demo>)
      requires Coherent(dirs) ==> Tracks(dirs, init, rows, pending, [])
      modifies this`rows
      ensures PassInv(dirs, init, old(rows), rows, pending, |pending|, succeeded, stillFailed)
    {
      succeeded, stillFailed := [], [];
      PassStart(dirs, init, rows, pending);
      for i := 0 to |pending|
        invariant PassInv(dirs, init, old(rows), rows, pending, i, succeeded, stillFailed)
      {
        PassStep(dirs, init, old(rows), rows, pending, i, succeeded, stillFailed);
        var r := SeedOne(pending[i]);
        if r.Ok? {
          succeeded := succeeded + [(pending[i], r.outcome)];
        } else {
          stillFailed := stillFailed + [pending[i]];
        }
      }
    }

    /** `seed_all`: retry the failures while a pass makes progress. `calls` counts `seed_one`. */
    method SeedAll(dirs: seq<Demo>) returns (results: seq<(Demo, SeedOutcome)>, calls: nat)
      modifies this`rows
      ensures Coherent(dirs) ==>
                IsLeastFixpoint(dirs, old(rows), rows.Keys) && InProgress(dirs, old(rows), rows) &&
                    AllSucceeded(old(rows), rows, results)
      ensures DistinctIds(dirs) ==> IsReport(dirs, rows, results)
      ensures forall k :: 0 <= k < |results| && results[k].1.Seeded? ==> ChildrenUsable(rows, results[k].0)
      ensures Coherent(dirs) ==> forall d :: d in dirs && d.id !in old(rows) ==>
                (d in Demos(results) <==> Buildable(old(rows), d) && ChildrenUsable(rows, d))
      ensures Extends(old(rows), rows)
      ensures 2 * calls <= |dirs| * (|dirs| + 1)
    {
      results, calls := [], 0;
      var pending, progressed := dirs, true;
      ghost var init := rows;
      RunStart(dirs, init);
      while pending != [] && progressed
        invariant LoopInv(dirs, init, rows, results, pending, progressed, calls)
        decreases |pending|, progressed
      {
        ghost var before := rows;
        var succeeded, stillFailed := Pass(dirs, init, pending);
        LoopStep(dirs, init, before, rows, results, pending, succeeded, stillFailed, calls);
        calls := calls + |pending|;
        results := results + succeeded;
        progressed := succeeded != [];
        pending := stillFailed;
      }
      RunEnd(dirs, init, rows, results, pending);
      if Coherent(dirs) {
        ReportedIff(dirs, init, rows, results);
      }
      TriangleClosed(|dirs|);
    }

    /** `purge_seeded`: delete every family that has a seeder-authored row. */
    method PurgeSeeded() returns (families: nat, instancesPurged: nat)
      modifies this
      ensures rows == Without(old(rows), Bases(old(rows)))
      ensures instances == InstancesWithout(old(rows), old(instances), Bases(old(rows)))
      ensures families == |Bases(old(rows))|
      ensures instancesPurged + |instances| == |old(instances)|
    {
      families, instancesPurged := 0, 0;
      var todo := Bases(rows);
      ghost var done, all := {}, todo;
      WithoutNone(rows, instances);
      while todo != {}
        invariant Splits(done, todo, all) && families == |done|
        invariant Purged(old(rows), old(instances), done, rows, instances)
        invariant instancesPurged + |instances| == |old(instances)|
        decreases |todo|
      {
        var b :| b in todo;
        PurgedStep(old(rows), old(instances), done, b, rows, instances);
        SplitsOneMore(done, todo, all, b);
        var purged := PurgeFamily(b);
        instancesPurged := instancesPurged + purged;
        families := families + 1;
        todo, done := todo - {b}, done + {b};
      }
    }

    /** The body of that loop: the family's instances, then its template rows. */
    method PurgeFamily(b: Id) returns (purged: nat)
      modifies this
      ensures rows == Without(old(rows), {b})
      ensures instances == InstancesWithout(old(rows), old(instances), {b})
      ensures purged + |instances| == |old(instances)|
    {
      var kept := InstancesWithout(rows, instances, {b});
      InstancesShrink(rows, instances, {b});
      purged := |instances| - |kept|;
      instances := kept;
      rows := Without(rows, {b});
    }

    /** `reseed_all`: purge, then seed. */
    method ReseedAll(dirs: seq<Demo>) returns (families: nat, instancesPurged: nat, seeded: nat)
      modifies this
      ensures Extends(Without(old(rows), Bases(old(rows))), rows)
      ensures Coherent(dirs) ==> IsLeastFixpoint(dirs, Without(old(rows), Bases(old(rows))), rows.Keys)
      ensures Coherent(dirs) ==> InProgress(dirs, Without(old(rows), Bases(old(rows))), rows)
      ensures Coherent(dirs) ==> seeded + |Without(old(rows), Bases(old(rows)))| == |rows|
      ensures Coherent(dirs) ==> forall d :: d in dirs && d.id in rows ==>
                (rows[d.id] == RowOf(d) <==> d.id !in Without(old(rows), Bases(old(rows))))
      ensures families == |Bases(old(rows))| && instancesPurged + |instances| == |old(instances)|
    {
      families, instancesPurged := PurgeSeeded();
      ghost var purged := rows;
      var results, calls := SeedAll(dirs);
      seeded := SeededCount(results);
      if Coherent(dirs) {
        SeededAddsUp(dirs, purged, rows, results);
        forall d | d in dirs && d.id in rows ensures rows[d.id] == RowOf(d) <==> d.id !in purged {
          RecreatedIff(dirs, old(rows), rows, d);
        }
      }
    }
  }

  /** Between passes: what is reported, and what the remaining passes may still cost. */
  ghost predicate LoopInv(dirs: seq<Demo>, init: Rows, rows: Rows, results: seq<(Demo, SeedOutcome)>,
                          pending: seq<Demo>,
                          progressed: bool, calls: nat) {
    && RunInv(dirs, init, rows, results, pending)
    && (!progressed ==> AllFail(rows, pending))
    && calls + (if progressed then Triangle(|pending|) else 0) <= Triangle(|dirs|)
  }

  lemma LoopStep(dirs: seq<Demo>, init: Rows, start: Rows, rows: Rows, results: seq<(Demo, SeedOutcome)>,
                 pending: seq<Demo>,
                 succeeded: seq<(Demo, SeedOutcome)>, failed: seq<Demo>, calls: nat)
    requires LoopInv(dirs, init, start, results, pending, true, calls)
    requires PassInv(dirs, init, start, rows, pending, |pending|, succeeded, failed)
    requires pending != []
    ensures LoopInv(dirs, init, rows, results + succeeded, failed, succeeded != [], calls + |pending|)
    ensures |failed| + |succeeded| == |pending|
  {
    RunPass(dirs, init, start, rows, results, pending, succeeded, failed);
    PassEnd(dirs, init, start, rows, pending, succeeded, failed);
    if succeeded == [] {
      NothingMoved(pending, failed, rows);
    } else {
      TriangleMonotone(|failed|, |pending| - 1);
    }
  }

  lemma NothingMoved(pending: seq<Demo>, failed: seq<Demo>, rows: Rows)
    requires Split(pending, [], failed) && AllFail(rows, pending)
    ensures AllFail(rows, failed)
  {
    assert Demos([]) == [];
    forall k | 0 <= k < |failed| ensures SeedResultFor(rows, failed[k]).Err? {
      assert failed[k] in multiset(pending);
    }
  }

  // ---------------------------------------------------------------------
  // purge_seeded and reseed_all
  // ---------------------------------------------------------------------

  /** The families with a row the seeder wrote. */
  function Bases(rows: Rows): set<Id> {
    set id | id in rows && rows[id].bySeeder :: rows[id].base.GetOr(id)
  }

  predicate InFamily(id: Id, row: Row, bases: set<Id>) {
    id in bases || (row.base.Some? && row.base.value in bases)
  }

  /** The rows outside the families `bases`. */
  function Without(rows: Rows, bases: set<Id>): Rows {
    map id | id in rows && !InFamily(id, rows[id], bases) :: rows[id]
  }

  /** The instances whose template is not in one of the families. */
  function InstancesWithout(rows: Rows, instances: map<Id, Id>, bases: set<Id>): map<Id, Id> {
    map i | i in instances &&
        !(instances[i] in rows && InFamily(instances[i], rows[instances[i]], bases)) :: instances[i]
  }

  lemma WithoutNone(rows: Rows, instances: map<Id, Id>)
    ensures Without(rows, {}) == rows && InstancesWithout(rows, instances, {}) == instances
  {
  }

  ghost predicate Splits(done: set<Id>, todo: set<Id>, all: set<Id>) {
    done + todo == all && done !! todo
  }

  lemma SplitsOneMore(done: set<Id>, todo: set<Id>, all: set<Id>, b: Id)
    requires Splits(done, todo, all) && b in todo
    ensures Splits(done + {b}, todo - {b}, all) && |done + {b}| == |done| + 1 && |todo - {b}| < |todo|
  {
  }

  /** The families `done` are gone, and nothing else. */
  ghost predicate Purged(start: Rows, startInstances: map<Id, Id>, done: set<Id>, rows: Rows, instances: map<Id, Id>) {
    rows == Without(start, done) && instances == InstancesWithout(start, startInstances, done)
  }

  lemma PurgedStep(start: Rows, startInstances: map<Id, Id>, done: set<Id>, b: Id, rows: Rows, instances: map<Id, Id>)
    requires Purged(start, startInstances, done, rows, instances)
    ensures Purged(start, startInstances, done + {b}, Without(rows, {b}), InstancesWithout(rows, instances, {b}))
  {
    WithoutOneMore(start, startInstances, done, b);
  }

  lemma WithoutOneMore(rows: Rows, instances: map<Id, Id>, done: set<Id>, b: Id)
    ensures Without(Without(rows, done), {b}) == Without(rows, done + {b})
    ensures InstancesWithout(Without(rows, done), InstancesWithout(rows, instances, done), {b}) ==
            InstancesWithout(rows, instances, done + {b})
  {
  }

  lemma InstancesShrink(rows: Rows, instances: map<Id, Id>, bases: set<Id>)
    ensures |InstancesWithout(rows, instances, bases)| <= |instances|
  {
    SubsetSmaller(InstancesWithout(rows, instances, bases).Keys, instances.Keys);
    assert |InstancesWithout(rows, instances, bases).Keys| == |InstancesWithout(rows, instances, bases)|;
    assert |instances.Keys| == |instances|;
  }

  lemma SeederRowIsInBases(rows: Rows, id: Id)
    ensures id in rows && rows[id].bySeeder ==> InFamily(id, rows[id], Bases(rows))
  {
    if id in rows && rows[id].bySeeder {
      assert rows[id].base.GetOr(id) in Bases(rows);
    }
  }

  /** A second purge finds nothing: no seeder row survives the first. */
  lemma PurgeLeavesNoSeederRow(rows: Rows)
    ensures Bases(Without(rows, Bases(rows))) == {}
    ensures forall id :: id in Without(rows, Bases(rows)) ==> !rows[id].bySeeder
  {
    var left := Without(rows, Bases(rows));
    forall id | id in left ensures !left[id].bySeeder {
      SeederRowIsInBases(rows, id);
    }
  }

  /** What survives a purge: the rows whose family no seeder-authored row belongs to. A
      demo whose id survives is reported as already present by a reset. */
  lemma SurvivesIff(rows: Rows, id: Id)
    ensures id in Without(rows, Bases(rows)) <==>
            id in rows && forall x :: x in rows && rows[x].bySeeder ==>
                                       var family := rows[x].base.GetOr(x); family != id &&
                                                                            rows[id].base != Some(family)
  {
    if id in rows && InFamily(id, rows[id], Bases(rows)) {
      var family := if id in Bases(rows) then id else rows[id].base.value;
      var x :| x in rows && rows[x].bySeeder && rows[x].base.GetOr(x) == family;
    }
  }

  /** And with the templates go exactly their instances. */
  lemma InstanceSurvivesIff(rows: Rows, instances: map<Id, Id>, i: Id)
    ensures var kept := InstancesWithout(rows, instances, Bases(rows));
            && (i in kept <==> i in instances && (instances[i] in rows ==> instances[i] in Without(rows, Bases(rows))))
            && (i in kept ==> kept[i] == instances[i])
  {
  }

  /** After a reset, the row of a published demo is the one its directory determines if and
      only if no row under its id survived the purge. */
  lemma RecreatedIff(dirs: seq<Demo>, rows: Rows, after: Rows, d: Demo)
    requires DistinctIds(dirs) && InProgress(dirs, Without(rows, Bases(rows)), after) && d in dirs && d.id in after
    ensures after[d.id] == RowOf(d) <==> d.id !in Without(rows, Bases(rows))
  {
    var kept := Without(rows, Bases(rows));
    PurgeLeavesNoSeederRow(rows);
    assert RowIs(dirs, kept, d.id, after[d.id]);
  }

  /** One surviving row, and the reset leaves it as it is: the demo is not recreated. */
  lemma ResetKeepsUserRow(d: Demo, row: Row) returns (rows: Rows)
    requires row.base.None? && !row.bySeeder
    ensures rows == map[d.id := row] && Without(rows, Bases(rows)) == rows
    ensures InProgress([d], rows, rows) && IsLeastFixpoint([d], rows, rows.Keys)
    ensures rows[d.id] != RowOf(d)
  {
    rows := map[d.id := row];
    assert Bases(rows) == {};
    WithoutNone(rows, map[]);
  }

  /** Version chains: a row's base is a family root that exists (the foreign key). */
  ghost predicate Chained(rows: Rows) {
    forall id :: id in rows && rows[id].base.Some? ==>
                   var b := rows[id].base.value; b in rows && (rows[b].base.Some? ==> rows[b].base.value == b)
  }

  /** Purging takes whole families, so no foreign key dangles. */
  lemma PurgeKeepsChains(rows: Rows, bases: set<Id>)
    requires Chained(rows)
    ensures Chained(Without(rows, bases))
  {
  }

  /** Purging what a reset seeded gives back what the reset started from: a
      reset neither adds to nor takes from the rows users own. */
  lemma ResetIsRepeatable(dirs: seq<Demo>, rows: Rows, after: Rows)
    requires Chained(rows)
    requires InProgress(dirs, Without(rows, Bases(rows)), after)
    ensures Without(after, Bases(after)) == Without(rows, Bases(rows))
  {
    var kept := Without(rows, Bases(rows));
    PurgeKeepsChains(rows, Bases(rows));
    PurgeLeavesNoSeederRow(rows);
    forall id | id in after ensures if id in kept then after[id] == kept[id] && !after[id].bySeeder
                                    else after[id].base == Some(id) && after[id].bySeeder
    {
      assert RowIs(dirs, kept, id, after[id]);
    }
    forall id | id in after && id !in kept ensures id in Bases(after) {
      assert after[id].base.GetOr(id) == id;
    }
    forall b | b in Bases(after) ensures b !in kept {
    }
  }

  /** The number of results reported as `Seeded`. */
  function SeededCount(results: seq<(Demo, SeedOutcome)>): nat {
    if results == [] then 0
    else SeededCount(results[..|results| - 1]) + (if results[|results| - 1].1.Seeded? then 1 else 0)
  }

  function SeededIds(results: seq<(Demo, SeedOutcome)>): set<Id> {
    set k | 0 <= k < |results| && results[k].1.Seeded? :: results[k].0.id
  }

  lemma SeededIdsAppend(front: seq<(Demo, SeedOutcome)>, last: (Demo, SeedOutcome))
    ensures SeededIds(front + [last]) == SeededIds(front) + (if last.1.Seeded? then {last.0.id} else {})
  {
    var all := front + [last];
    forall k | 0 <= k < |front| && front[k].1.Seeded? ensures front[k].0.id in SeededIds(all) {
      assert all[k] == front[k];
    }
    if last.1.Seeded? {
      assert all[|front|] == last;
    }
  }

  lemma {:induction false} SeededCountIds(results: seq<(Demo, SeedOutcome)>)
    requires forall i, j :: 0 <= i < j < |results| ==> results[i].0.id != results[j].0.id
    ensures SeededCount(results) == |SeededIds(results)|
  {
    if results != [] {
      var n := |results| - 1;
      var front, last := results[..n], results[n];
      SeededCountIds(front);
      SeededIdsAppend(front, last);
      assert results == front + [last];
      SeededBefore(front, last.0.id);
    }
  }

  lemma SeededBefore(front: seq<(Demo, SeedOutcome)>, id: Id)
    requires forall k :: 0 <= k < |front| ==> front[k].0.id != id
    ensures id !in SeededIds(front)
  {
  }

  /** The reported count is exactly how many rows the seeding added. */
  lemma SeededAddsUp(dirs: seq<Demo>, init: Rows, rows: Rows, results: seq<(Demo, SeedOutcome)>)
    requires DistinctIds(dirs) && InProgress(dirs, init, rows)
    requires IsReport(dirs, rows, results) && AllSucceeded(init, rows, results)
    ensures SeededCount(results) + |init| == |rows|
  {
    SeededCountIds(results);
    NewRowsAreReports(dirs, init, rows, results);
    RowsAddUp(init, rows, SeededIds(results));
  }

  lemma RowsAddUp(init: Rows, rows: Rows, added: set<Id>)
    requires init.Keys <= rows.Keys && added == rows.Keys - init.Keys
    ensures |added| + |init| == |rows|
  {
    assert rows.Keys == init.Keys + added && init.Keys !! added;
    assert |rows| == |rows.Keys| && |init| == |init.Keys|;
  }

  lemma NewRowsAreReports(dirs: seq<Demo>, init: Rows, rows: Rows, results: seq<(Demo, SeedOutcome)>)
    requires InProgress(dirs, init, rows) && IsReport(dirs, rows, results) && AllSucceeded(init, rows, results)
    ensures SeededIds(results) == rows.Keys - init.Keys
  {
    forall id | id in rows && id !in init ensures id in SeededIds(results) {
      NewRowReported(dirs, init, rows, results, id);
    }
    forall id | id in SeededIds(results) ensures id in rows && id !in init {
      ReportedIsNew(init, rows, results, id);
    }
  }

  lemma NewRowReported(dirs: seq<Demo>, init: Rows, rows: Rows, results: seq<(Demo, SeedOutcome)>, id: Id)
    requires InProgress(dirs, init, rows) && IsReport(dirs, rows, results) && AllSucceeded(init, rows, results)
    requires id in rows && id !in init
    ensures id in SeededIds(results)
  {
    assert RowIs(dirs, init, id, rows[id]);
    var d :| d in dirs && d.id == id && Malformed(d).None?;
    assert d in Demos(results);
    var k :| 0 <= k < |results| && Demos(results)[k] == d;
    assert IsSuccess(init, rows, results[k]);
  }

  lemma ReportedIsNew(init: Rows, rows: Rows, results: seq<(Demo, SeedOutcome)>, id: Id)
    requires AllSucceeded(init, rows, results) && id in SeededIds(results)
    ensures id in rows && id !in init
  {
    var k :| 0 <= k < |results| && results[k].1.Seeded? && results[k].0.id == id;
    assert IsSuccess(init, rows, results[k]);
  }
}
