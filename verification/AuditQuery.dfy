/** The query that `getGlobalAuditLog` compiles: hand-numbered placeholders shared by the
    arms of a union, each arm capped and sorted on its own. */
module AuditQuery {
  import opened Common
  import opened AuditTopN

  /** A parameter of the driver's one positional list. */
  datatype Value = Text(s: string) | Time(t: int) | Num(n: int)

  /** A WHERE conjunct; `k` is the number of its `$k` placeholder. */
  datatype Condition =
    | ActorIs(k: nat)
    | NotBefore(k: nat)
    | NotAfter(k: nat)
    | BranchIs(k: nat)
    | BranchIn(ids: seq<string>)

  datatype Arm = Arm(table: string, conditions: seq<Condition>, limit: nat)

  /** `params` serves the count query, `params` and three more values the data query. */
  datatype Plan = Plan(
    arms: seq<Arm>, params: seq<Value>, dataParams: seq<Value>, outerLimit: nat, outerOffset: nat)

  datatype Compiled = BadRequest | NoTables | Query(plan: Plan)

  /** Which tables are whitelisted, have a history twin, and carry a branch column there. */
  datatype Catalog = Catalog(auditable: seq<string>, existing: set<string>, withBranch: set<string>)

  /** `auditScoped`: neither SuperAdmin nor finance, but allowed to read the audit log. */
  datatype Viewer = Viewer(
    auditScoped: bool, currentBranchId: Option<string>, effectiveBranchIds: Option<seq<string>>)

  /** Dates are instants; an absent or empty filter is None. Pages are counted from 1. */
  datatype Filters = Filters(
    tableName: Option<string>, actorId: Option<string>, startDate: Option<int>, endDate: Option<int>,
    page: nat, limit: nat)

  predicate ScopedToBranch(v: Viewer) {
    v.auditScoped && Truthy(v.currentBranchId)
  }

  predicate ScopedToGroup(v: Viewer) {
    !ScopedToBranch(v) && v.effectiveBranchIds.Some? && |v.effectiveBranchIds.value| > 0
  }

  predicate Scoped(v: Viewer) {
    ScopedToBranch(v) || ScopedToGroup(v)
  }

  predicate HasBranch(cat: Catalog, t: string) {
    t == "users" || t in cat.withBranch
  }

  function Offset(f: Filters): nat
    requires f.page >= 1
  {
    (f.page - 1) * f.limit
  }

  function KeepExisting(cat: Catalog, ts: seq<string>): seq<string> {
    if ts == [] then []
    else (if ts[0] == MIRROR || ts[0] in cat.existing then [ts[0]] else []) + KeepExisting(cat, ts[1..])
  }

  function KeepScoped(cat: Catalog, ts: seq<string>): seq<string> {
    if ts == [] then []
    else (if ts[0] != MIRROR && HasBranch(cat, ts[0]) then [ts[0]] else []) + KeepScoped(cat, ts[1..])
  }

  /** None when the requested table is not whitelisted. */
  function Tables(cat: Catalog, f: Filters, v: Viewer): Option<seq<string>> {
    if Truthy(f.tableName) && f.tableName.value !in cat.auditable then None
    else
      var ts := KeepExisting(cat, if Truthy(f.tableName) then [f.tableName.value] else cat.auditable);
      Some(if Scoped(v) then KeepScoped(cat, ts) else ts)
  }

  // ---- Meaning --------------------------------------------------------------------------

  predicate Bound(c: Condition, params: seq<Value>) {
    match c
    case ActorIs(k) => 1 <= k <= |params| && params[k - 1].Text?
    case NotBefore(k) => 1 <= k <= |params| && params[k - 1].Time?
    case NotAfter(k) => 1 <= k <= |params| && params[k - 1].Time?
    case BranchIs(k) => 1 <= k <= |params| && params[k - 1].Text?
    case BranchIn(_) => true
  }

  /** Comparisons with NULL are not true. */
  predicate Satisfies(row: Row, c: Condition, params: seq<Value>)
    requires Bound(c, params)
  {
    match c
    case ActorIs(k) => row.actor == Some(params[k - 1].s)
    case NotBefore(k) => Key(row, Inner).Some? && Key(row, Inner).value >= params[k - 1].t
    case NotAfter(k) => Key(row, Inner).Some? && Key(row, Inner).value <= params[k - 1].t
    case BranchIs(k) => row.branch == Some(params[k - 1].s)
    case BranchIn(ids) => row.branch.Some? && row.branch.value in ids
  }

  predicate AllBound(cs: seq<Condition>, params: seq<Value>) {
    forall c :: c in cs ==> Bound(c, params)
  }

  predicate Accepts(cs: seq<Condition>, params: seq<Value>, row: Row)
    requires AllBound(cs, params)
  {
    forall c :: c in cs ==> Satisfies(row, c, params)
  }

  /** What the filters and the viewer's scope ask of a row, without any placeholder. */
  predicate Wanted(cat: Catalog, f: Filters, v: Viewer, row: Row) {
    var when := Key(row, Inner);
    && (Truthy(f.actorId) ==> row.actor == f.actorId)
    && (f.startDate.Some? ==> when.Some? && when.value >= f.startDate.value)
    && (f.endDate.Some? ==> when.Some? && when.value <= f.endDate.value)
    && (HasBranch(cat, row.table) ==>
          && (ScopedToBranch(v) ==> row.branch == v.currentBranchId)
          && (ScopedToGroup(v) ==> row.branch.Some? && row.branch.value in v.effectiveBranchIds.value))
  }

  // ---- The compiler ---------------------------------------------------------------------

  datatype Slots = Slots(actor: nat, start: nat, end: nat, branch: nat)

  predicate SlotsFit(f: Filters, v: Viewer, s: Slots, params: seq<Value>) {
    && (if Truthy(f.actorId) then 1 <= s.actor <= |params| && params[s.actor - 1] == Text(f.actorId.value)
        else s.actor == 0)
    && (if f.startDate.Some? then 1 <= s.start <= |params| && params[s.start - 1] == Time(f.startDate.value)
        else s.start == 0)
    && (if f.endDate.Some? then 1 <= s.end <= |params| && params[s.end - 1] == Time(f.endDate.value) else s.end == 0)
    && (if ScopedToBranch(v) then 1 <= s.branch <= |params| && params[s.branch - 1] == Text(v.currentBranchId.value)
        else s.branch == 0)
  }

  function ArmConditions(cat: Catalog, v: Viewer, s: Slots, t: string): seq<Condition> {
    (if s.actor != 0 then [ActorIs(s.actor)] else [])
    + (if s.start != 0 then [NotBefore(s.start)] else [])
    + (if s.end != 0 then [NotAfter(s.end)] else [])
    + (if s.branch != 0 && HasBranch(cat, t) then [BranchIs(s.branch)] else [])
    + (if ScopedToGroup(v) && HasBranch(cat, t) then [BranchIn(v.effectiveBranchIds.value)] else [])
  }

  lemma ArmMeaning(cat: Catalog, f: Filters, v: Viewer, s: Slots, params: seq<Value>, row: Row)
    requires SlotsFit(f, v, s, params)
    ensures AllBound(ArmConditions(cat, v, s, row.table), params)
    ensures Accepts(ArmConditions(cat, v, s, row.table), params, row) <==> Wanted(cat, f, v, row)
  {
    var cs := ArmConditions(cat, v, s, row.table);
    if s.actor != 0 { assert ActorIs(s.actor) in cs; }
    if s.start != 0 { assert NotBefore(s.start) in cs; }
    if s.end != 0 { assert NotAfter(s.end) in cs; }
    if s.branch != 0 && HasBranch(cat, row.table) { assert BranchIs(s.branch) in cs; }
    if ScopedToGroup(v) && HasBranch(cat, row.table) { assert BranchIn(v.effectiveBranchIds.value) in cs; }
  }

  /** Every placeholder of the arm is in range for the parameters it is sent with, and its
      WHERE clause is the intended filter. */
  ghost predicate ArmCorrect(cat: Catalog, f: Filters, v: Viewer, arm: Arm, params: seq<Value>) {
    && AllBound(arm.conditions, params)
    && (forall row: Row :: row.table == arm.table
          ==> (Accepts(arm.conditions, params, row) <==> Wanted(cat, f, v, row)))
  }

  predicate Reads(params: seq<Value>, k: nat, n: nat) {
    1 <= k <= |params| && params[k - 1] == Num(n)
  }

  ghost predicate PlanCorrect(cat: Catalog, f: Filters, v: Viewer, p: Plan)
    requires f.page >= 1
  {
    && Tables(cat, f, v).Some? && |p.arms| == |Tables(cat, f, v).value|
    && p.params <= p.dataParams
    && (forall i :: 0 <= i < |p.arms| ==>
          && p.arms[i].table == Tables(cat, f, v).value[i]
          && ArmCorrect(cat, f, v, p.arms[i], p.params)
          && Reads(p.dataParams, p.arms[i].limit, f.limit + Offset(f)))
    && Reads(p.dataParams, p.outerLimit, f.limit) && Reads(p.dataParams, p.outerOffset, Offset(f))
  }

  /** The tables asked for: the one named, or the whole whitelist. */
  function Requested(cat: Catalog, f: Filters): seq<string> {
    if Truthy(f.tableName) then [f.tableName.value] else cat.auditable
  }

  /** What makes a requested table part of the query. */
  predicate Queried(cat: Catalog, v: Viewer, t: string) {
    (t == MIRROR || t in cat.existing) && (Scoped(v) ==> t != MIRROR && HasBranch(cat, t))
  }

  predicate Subsequence(a: seq<string>, b: seq<string>) {
    a == [] || (b != [] && if a[0] == b[0] then Subsequence(a[1..], b[1..]) else Subsequence(a, b[1..]))
  }

  lemma SubsequenceKept(t: string, kept: seq<string>, ts: seq<string>)
    requires Subsequence(kept, ts)
    ensures Subsequence([t] + kept, [t] + ts)
  {
    assert ([t] + kept)[1..] == kept && ([t] + ts)[1..] == ts;
  }

  lemma SubsequenceSkipped(t: string, kept: seq<string>, ts: seq<string>)
    requires Subsequence(kept, ts) && t !in kept
    ensures Subsequence(kept, [t] + ts)
  {
    assert ([t] + ts)[1..] == ts;
    if kept != [] { assert kept[0] in kept; }
  }

  lemma {:induction false} ExistingAre(cat: Catalog, v: Viewer, ts: seq<string>)
    requires !Scoped(v)
    ensures forall t :: t in KeepExisting(cat, ts) <==> t in ts && Queried(cat, v, t)
    ensures Subsequence(KeepExisting(cat, ts), ts)
  {
    if ts != [] {
      var rest := KeepExisting(cat, ts[1..]);
      ExistingAre(cat, v, ts[1..]);
      assert ts == [ts[0]] + ts[1..];
      if Queried(cat, v, ts[0]) { SubsequenceKept(ts[0], rest, ts[1..]); }
      else { assert KeepExisting(cat, ts) == rest; SubsequenceSkipped(ts[0], rest, ts[1..]); }
    }
  }

  lemma ScopedCons(cat: Catalog, t: string, ts: seq<string>)
    ensures KeepScoped(cat, [t] + ts) == (if t != MIRROR && HasBranch(cat, t) then [t] else []) + KeepScoped(cat, ts)
  {
    assert ([t] + ts)[1..] == ts;
  }

  lemma {:induction false} ScopedAre(cat: Catalog, v: Viewer, ts: seq<string>)
    requires Scoped(v)
    ensures forall t :: t in KeepScoped(cat, KeepExisting(cat, ts)) <==> t in ts && Queried(cat, v, t)
    ensures Subsequence(KeepScoped(cat, KeepExisting(cat, ts)), ts)
  {
    if ts != [] {
      var rest := KeepScoped(cat, KeepExisting(cat, ts[1..]));
      ScopedAre(cat, v, ts[1..]);
      ScopedCons(cat, ts[0], KeepExisting(cat, ts[1..]));
      assert ts == [ts[0]] + ts[1..];
      if Queried(cat, v, ts[0]) {
        assert KeepScoped(cat, KeepExisting(cat, ts)) == [ts[0]] + rest;
        SubsequenceKept(ts[0], rest, ts[1..]);
      } else {
        var later := KeepExisting(cat, ts[1..]);
        assert KeepExisting(cat, ts) == later || KeepExisting(cat, ts) == [ts[0]] + later;
        assert KeepScoped(cat, KeepExisting(cat, ts)) == rest;
        SubsequenceSkipped(ts[0], rest, ts[1..]);
      }
    }
  }

  /** A request is refused exactly if it names a table outside the whitelist. Otherwise a table
      is queried exactly if it was asked for, has its history (or is the mirror log) and, for a
      scoped viewer, carries a branch; the order is that of the request. */
  lemma TablesAre(cat: Catalog, f: Filters, v: Viewer)
    ensures Tables(cat, f, v).None? <==> Truthy(f.tableName) && f.tableName.value !in cat.auditable
    ensures Tables(cat, f, v).Some? ==>
      var ts := Tables(cat, f, v).value;
      Subsequence(ts, Requested(cat, f)) && forall t :: t in ts <==> t in Requested(cat, f) && Queried(cat, v, t)
  {
    if Scoped(v) { ScopedAre(cat, v, Requested(cat, f)); } else { ExistingAre(cat, v, Requested(cat, f)); }
  }

  method SelectTables(cat: Catalog, f: Filters, v: Viewer) returns (r: Option<seq<string>>)
    ensures r == Tables(cat, f, v)
    ensures r.None? <==> Truthy(f.tableName) && f.tableName.value !in cat.auditable
    ensures r.Some? ==> forall t :: t in r.value <==> t in Requested(cat, f) && Queried(cat, v, t)
  {
    TablesAre(cat, f, v);
    if Truthy(f.tableName) && f.tableName.value !in cat.auditable { return None; }
    var ts := KeepExisting(cat, if Truthy(f.tableName) then [f.tableName.value] else cat.auditable);
    if Scoped(v) { ts := KeepScoped(cat, ts); }
    return Some(ts);
  }

  /** One parameter per filter that is present; every arm will share its number. */
  method BindParams(f: Filters, v: Viewer) returns (slots: Slots, params: seq<Value>, next: nat)
    ensures SlotsFit(f, v, slots, params)
    ensures next == |params| + 1
  {
    slots, params, next := Slots(0, 0, 0, 0), [], 1;
    if Truthy(f.actorId) {
      slots, next, params := slots.(actor := next), next + 1, params + [Text(f.actorId.value)];
    }
    if f.startDate.Some? {
      slots, next, params := slots.(start := next), next + 1, params + [Time(f.startDate.value)];
    }
    if f.endDate.Some? {
      slots, next, params := slots.(end := next), next + 1, params + [Time(f.endDate.value)];
    }
    if ScopedToBranch(v) {
      slots, next, params := slots.(branch := next), next + 1, params + [Text(v.currentBranchId.value)];
    }
  }

  method BuildArms(cat: Catalog, v: Viewer, tables: seq<string>, slots: Slots, limit: nat) returns (arms: seq<Arm>)
    ensures |arms| == |tables|
    ensures forall j :: 0 <= j < |arms| ==>
      arms[j] == Arm(tables[j], ArmConditions(cat, v, slots, tables[j]), limit)
  {
    arms := [];
    for i := 0 to |tables|
      invariant |arms| == i
      invariant forall j :: 0 <= j < i ==>
        arms[j] == Arm(tables[j], ArmConditions(cat, v, slots, tables[j]), limit)
    {
      var t, conditions: seq<Condition> := tables[i], [];
      if slots.actor != 0 { conditions := conditions + [ActorIs(slots.actor)]; }
      if slots.start != 0 { conditions := conditions + [NotBefore(slots.start)]; }
      if slots.end != 0 { conditions := conditions + [NotAfter(slots.end)]; }
      if slots.branch != 0 && HasBranch(cat, t) { conditions := conditions + [BranchIs(slots.branch)]; }
      if ScopedToGroup(v) && HasBranch(cat, t) {
        conditions := conditions + [BranchIn(v.effectiveBranchIds.value)];
      }
      assert conditions == ArmConditions(cat, v, slots, t);
      arms := arms + [Arm(t, conditions, limit)];
    }
  }

  lemma ArmIsCorrect(cat: Catalog, f: Filters, v: Viewer, s: Slots, params: seq<Value>, arm: Arm)
    requires SlotsFit(f, v, s, params) && arm.conditions == ArmConditions(cat, v, s, arm.table)
    ensures ArmCorrect(cat, f, v, arm, params)
  {
    ArmMeaning(cat, f, v, s, params, Row(arm.table, "", None, None, 0, None));
    forall row: Row | row.table == arm.table
      ensures Accepts(arm.conditions, params, row) <==> Wanted(cat, f, v, row)
    {
      ArmMeaning(cat, f, v, s, params, row);
    }
  }

  /** Numbers the placeholders in one pass and reuses them in every arm. */
  method Compile(cat: Catalog, f: Filters, v: Viewer) returns (r: Compiled)
    requires f.page >= 1
    ensures r.BadRequest? <==> Tables(cat, f, v).None?
    ensures r.NoTables? <==> Tables(cat, f, v) == Some([])
    ensures r.Query? ==> PlanCorrect(cat, f, v, r.plan)
  {
    var selected := SelectTables(cat, f, v);
    if selected.None? { return BadRequest; }
    if selected.value == [] { return NoTables; }
    var slots, params, next := BindParams(f, v);
    var offset := Offset(f);
    var dataParams := params + [Num(f.limit + offset)];
    var arms := BuildArms(cat, v, selected.value, slots, next);
    next := next + 1;
    forall i | 0 <= i < |arms| ensures ArmCorrect(cat, f, v, arms[i], params) {
      ArmIsCorrect(cat, f, v, slots, params, arms[i]);
    }
    return Query(Plan(arms, params, dataParams + [Num(f.limit), Num(offset)], next, next + 1));
  }

  // ---- Execution ------------------------------------------------------------------------

  type Database = map<string, seq<Row>>

  ghost predicate WellFormed(db: Database) {
    forall t :: t in db ==> forall r :: r in db[t] ==> r.table == t
  }

  function Scan(db: Database, t: string): seq<Row> {
    if t in db then db[t] else []
  }

  function Where(rows: seq<Row>, cs: seq<Condition>, params: seq<Value>): seq<Row>
    requires AllBound(cs, params)
  {
    if rows == [] then []
    else (if Accepts(cs, params, rows[0]) then [rows[0]] else []) + Where(rows[1..], cs, params)
  }

  function WantedOf(cat: Catalog, f: Filters, v: Viewer, rows: seq<Row>): seq<Row> {
    if rows == [] then []
    else (if Wanted(cat, f, v, rows[0]) then [rows[0]] else []) + WantedOf(cat, f, v, rows[1..])
  }

  /** The wanted rows of each table, in the order of the tables. */
  function WantedArms(cat: Catalog, f: Filters, v: Viewer, db: Database, ts: seq<string>): seq<seq<Row>> {
    if ts == [] then [] else [WantedOf(cat, f, v, Scan(db, ts[0]))] + WantedArms(cat, f, v, db, ts[1..])
  }

  /** The query read directly: all wanted rows of all selected tables, sorted, sliced. */
  ghost predicate Answers(cat: Catalog, f: Filters, v: Viewer, db: Database, page: seq<Row>)
    requires f.page >= 1 && Tables(cat, f, v).Some?
  {
    IsPage(Flatten(WantedArms(cat, f, v, db, Tables(cat, f, v).value)), Outer, f.limit, Offset(f), page)
  }

  /** One arm filters, sorts by the arms' key and keeps as many rows as its placeholder says. */
  ghost predicate ArmRuns(p: Plan, db: Database, inner: Level, i: nat, top: seq<Row>) {
    && i < |p.arms| && AllBound(p.arms[i].conditions, p.params) && p.params <= p.dataParams
    && exists n: nat :: Reads(p.dataParams, p.arms[i].limit, n)
         && IsTop(Where(Scan(db, p.arms[i].table), p.arms[i].conditions, p.params), inner, n, top)
  }

  /** A run of the compiled query by the given keys: the arms' rows are united, sorted by the
      outer key and sliced. Every number is read through its placeholder. */
  ghost predicate RunsBy(p: Plan, db: Database, inner: Level, outer: Level,
                         tops: seq<seq<Row>>, out: seq<Row>, page: seq<Row>) {
    && |tops| == |p.arms|
    && (forall i :: 0 <= i < |tops| ==> ArmRuns(p, db, inner, i, tops[i]))
    && exists limit: nat, offset: nat ::
         && Reads(p.dataParams, p.outerLimit, limit) && Reads(p.dataParams, p.outerOffset, offset)
         && IsTop(Flatten(tops), outer, limit + offset, out)
         && page == out[Min(offset, |out|)..]
  }

  /** The query as written, ties resolved in any way. */
  ghost predicate Executes(p: Plan, db: Database, tops: seq<seq<Row>>, out: seq<Row>, page: seq<Row>) {
    RunsBy(p, db, Inner, Outer, tops, out, page)
  }

  lemma {:induction false} WhereIsWanted(
      cat: Catalog, f: Filters, v: Viewer, arm: Arm, params: seq<Value>, rows: seq<Row>)
    requires ArmCorrect(cat, f, v, arm, params)
    requires forall r :: r in rows ==> r.table == arm.table
    ensures Where(rows, arm.conditions, params) == WantedOf(cat, f, v, rows)
  {
    if rows != [] {
      assert rows[0] in rows;
      WhereIsWanted(cat, f, v, arm, params, rows[1..]);
    }
  }

  lemma {:induction false} WantedArmAt(cat: Catalog, f: Filters, v: Viewer, db: Database, ts: seq<string>, i: nat)
    requires i < |ts|
    ensures |WantedArms(cat, f, v, db, ts)| == |ts|
    ensures WantedArms(cat, f, v, db, ts)[i] == WantedOf(cat, f, v, Scan(db, ts[i]))
  {
    if i > 0 { WantedArmAt(cat, f, v, db, ts[1..], i - 1); }
    else if |ts| > 1 { WantedArmAt(cat, f, v, db, ts[1..], 0); }
  }

  lemma {:induction false} WantedKeepsTable(cat: Catalog, f: Filters, v: Viewer, rows: seq<Row>, t: string)
    requires forall r :: r in rows ==> r.table == t
    ensures forall r :: r in WantedOf(cat, f, v, rows) ==> r.table == t
  {
    if rows != [] {
      assert rows[0] in rows;
      WantedKeepsTable(cat, f, v, rows[1..], t);
    }
  }

  /** Away from mirror sessions the two sort keys are one. */
  lemma SameKeys(rows: seq<Row>, n: nat, out: seq<Row>)
    requires (forall r :: r in rows ==> r.table != MIRROR) && IsTop(rows, Inner, n, out)
    ensures IsTop(rows, Outer, n, out)
  {
    forall r | r in multiset(rows) ensures Key(r, Inner) == Key(r, Outer) {
      assert r in rows;
    }
    forall i | 0 <= i < |out| ensures Key(out[i], Inner) == Key(out[i], Outer) {
      assert out[i] in multiset(out);
    }
  }

  lemma ArmIsTop(cat: Catalog, f: Filters, v: Viewer, p: Plan, db: Database, inner: Level, outer: Level,
                 tops: seq<seq<Row>>, out: seq<Row>, page: seq<Row>, i: nat)
    requires f.page >= 1 && PlanCorrect(cat, f, v, p) && WellFormed(db) && RunsBy(p, db, inner, outer, tops, out, page)
    requires i < |tops|
    ensures IsTop(WantedOf(cat, f, v, Scan(db, p.arms[i].table)), inner, f.limit + Offset(f), tops[i])
  {
    assert ArmRuns(p, db, inner, i, tops[i]);
    WhereIsWanted(cat, f, v, p.arms[i], p.params, Scan(db, p.arms[i].table));
  }

  lemma ArmMayRun(cat: Catalog, f: Filters, v: Viewer, p: Plan, db: Database, inner: Level, top: seq<Row>, i: nat)
    requires f.page >= 1 && PlanCorrect(cat, f, v, p) && WellFormed(db) && i < |p.arms|
    requires IsTop(WantedOf(cat, f, v, Scan(db, p.arms[i].table)), inner, f.limit + Offset(f), top)
    ensures ArmRuns(p, db, inner, i, top)
  {
    WhereIsWanted(cat, f, v, p.arms[i], p.params, Scan(db, p.arms[i].table));
  }

  /** Conversely, tops of the wanted rows of each arm are a run of the plan. */
  lemma PlanMayRun(cat: Catalog, f: Filters, v: Viewer, p: Plan, db: Database, inner: Level, outer: Level,
                   tops: seq<seq<Row>>, out: seq<Row>)
    requires f.page >= 1 && PlanCorrect(cat, f, v, p) && WellFormed(db) && |tops| == |p.arms|
    requires forall i :: 0 <= i < |tops| ==> ArmRuns(p, db, inner, i, tops[i])
    requires IsTop(Flatten(tops), outer, f.limit + Offset(f), out)
    ensures RunsBy(p, db, inner, outer, tops, out, out[Min(Offset(f), |out|)..])
  {
  }

  lemma ArmsAreTop(cat: Catalog, f: Filters, v: Viewer, p: Plan, db: Database,
                   tops: seq<seq<Row>>, out: seq<Row>, page: seq<Row>, i: nat)
    requires f.page >= 1 && PlanCorrect(cat, f, v, p) && WellFormed(db) && Executes(p, db, tops, out, page)
    requires MIRROR !in Tables(cat, f, v).value && i < |tops|
    ensures var ts := Tables(cat, f, v).value;
            var arms := WantedArms(cat, f, v, db, ts);
            |arms| == |tops| && IsTop(arms[i], Outer, f.limit + Offset(f), tops[i])
  {
    var ts := Tables(cat, f, v).value;
    WantedArmAt(cat, f, v, db, ts, i);
    ArmIsTop(cat, f, v, p, db, Inner, Outer, tops, out, page, i);
    WantedKeepsTable(cat, f, v, Scan(db, ts[i]), ts[i]);
    assert ts[i] in ts;
    SameKeys(WantedOf(cat, f, v, Scan(db, ts[i])), f.limit + Offset(f), tops[i]);
  }

  lemma OuterSlice(cat: Catalog, f: Filters, v: Viewer, p: Plan, db: Database, inner: Level, outer: Level,
                   tops: seq<seq<Row>>, out: seq<Row>, page: seq<Row>)
    requires f.page >= 1 && PlanCorrect(cat, f, v, p) && RunsBy(p, db, inner, outer, tops, out, page)
    ensures |tops| == |Tables(cat, f, v).value| && IsTop(Flatten(tops), outer, f.limit + Offset(f), out)
    ensures page == out[Min(Offset(f), |out|)..]
  {
  }

  /** The compiled query, run with any resolution of ties, gives a page that the direct query
      may give, whenever the mirror arm is absent. */
  lemma CompiledAnswers(cat: Catalog, f: Filters, v: Viewer, p: Plan, db: Database,
                        tops: seq<seq<Row>>, out: seq<Row>, page: seq<Row>)
    requires f.page >= 1 && PlanCorrect(cat, f, v, p) && WellFormed(db) && Executes(p, db, tops, out, page)
    requires MIRROR !in Tables(cat, f, v).value
    ensures Answers(cat, f, v, db, page)
  {
    var ts, n := Tables(cat, f, v).value, f.limit + Offset(f);
    var arms := WantedArms(cat, f, v, db, ts);
    OuterSlice(cat, f, v, p, db, Inner, Outer, tops, out, page);
    if ts != [] { WantedArmAt(cat, f, v, db, ts, 0); }
    forall i | 0 <= i < |tops| ensures IsTop(arms[i], Outer, n, tops[i]) {
      ArmsAreTop(cat, f, v, p, db, tops, out, page, i);
    }
    assert TopArms(arms, n, tops, Outer);
    Pushdown(arms, n, tops, out, Outer);
  }

  lemma {:induction false} ScopedTables(cat: Catalog, ts: seq<string>)
    ensures forall t :: t in KeepScoped(cat, ts) ==> t != MIRROR && HasBranch(cat, t)
  {
    if ts != [] { ScopedTables(cat, ts[1..]); }
  }

  /** A viewer scoped to a branch or a company never has the mirror arm, and every arm is
      restricted to the viewer's branches. */
  lemma ScopedViewerAnswers(cat: Catalog, f: Filters, v: Viewer, p: Plan, db: Database,
                            tops: seq<seq<Row>>, out: seq<Row>, page: seq<Row>)
    requires f.page >= 1 && PlanCorrect(cat, f, v, p) && WellFormed(db) && Executes(p, db, tops, out, page)
    requires Scoped(v)
    ensures Answers(cat, f, v, db, page)
    ensures forall t :: t in Tables(cat, f, v).value ==> HasBranch(cat, t)
  {
    ScopedTables(cat, KeepExisting(cat, if Truthy(f.tableName) then [f.tableName.value] else cat.auditable));
    CompiledAnswers(cat, f, v, p, db, tops, out, page);
  }

  // ---- With ties broken in a fixed way ----------------------------------------------------

  function WantedRows(cat: Catalog, f: Filters, v: Viewer, db: Database): seq<Row>
    requires Tables(cat, f, v).Some?
  {
    Flatten(WantedArms(cat, f, v, db, Tables(cat, f, v).value))
  }

  /** With one fixed tie-break in the arms and outside, the compiled query gives the very page
      that sorting all wanted rows gives, however many rows share a `valid_to`. */
  lemma SamePage(cat: Catalog, f: Filters, v: Viewer, p: Plan, db: Database, rank: Row -> int,
                 tops: seq<seq<Row>>, out: seq<Row>, page: seq<Row>)
    requires f.page >= 1 && PlanCorrect(cat, f, v, p) && WellFormed(db)
    requires TieBreak(rank, WantedRows(cat, f, v, db))
    requires RunsBy(p, db, Ranked(rank), Ranked(rank), tops, out, page)
    ensures var all := WantedRows(cat, f, v, db);
            && |Sort(all, Ranked(rank))| == |all|
            && page == Sort(all, Ranked(rank))[Min(Offset(f), |all|)..Min(Offset(f) + f.limit, |all|)]
    ensures IsPage(WantedRows(cat, f, v, db), Ranked(rank), f.limit, Offset(f), page)
  {
    var arms, n := WantedArms(cat, f, v, db, Tables(cat, f, v).value), f.limit + Offset(f);
    OuterSlice(cat, f, v, p, db, Ranked(rank), Ranked(rank), tops, out, page);
    RankedTops(cat, f, v, p, db, rank, tops, out, page);
    SameRows(rank, arms, n, tops, out);
    Pushdown(arms, n, tops, out, Ranked(rank));
  }

  lemma RankedTops(cat: Catalog, f: Filters, v: Viewer, p: Plan, db: Database, rank: Row -> int,
                   tops: seq<seq<Row>>, out: seq<Row>, page: seq<Row>)
    requires f.page >= 1 && PlanCorrect(cat, f, v, p) && WellFormed(db)
    requires RunsBy(p, db, Ranked(rank), Ranked(rank), tops, out, page)
    ensures TopArms(WantedArms(cat, f, v, db, Tables(cat, f, v).value), f.limit + Offset(f), tops, Ranked(rank))
  {
    var ts := Tables(cat, f, v).value;
    if ts != [] { WantedArmAt(cat, f, v, db, ts, 0); }
    forall i | 0 <= i < |tops|
      ensures IsTop(WantedArms(cat, f, v, db, ts)[i], Ranked(rank), f.limit + Offset(f), tops[i])
    {
      WantedArmAt(cat, f, v, db, ts, i);
      ArmIsTop(cat, f, v, p, db, Ranked(rank), Ranked(rank), tops, out, page, i);
    }
  }

  lemma {:induction false} InnerKeys(rows: seq<Row>, n: nat, out: seq<Row>)
    requires (forall r :: r in rows ==> r.table != MIRROR) && IsTop(rows, Outer, n, out)
    ensures IsTop(rows, Inner, n, out)
  {
    forall r | r in multiset(rows) ensures Key(r, Inner) == Key(r, Outer) { assert r in rows; }
    forall i | 0 <= i < |out| ensures Key(out[i], Inner) == Key(out[i], Outer) { assert out[i] in multiset(out); }
  }

  lemma ArmTieBreak(cat: Catalog, f: Filters, v: Viewer, db: Database, rank: Row -> int, i: nat)
    requires Tables(cat, f, v).Some? && i < |Tables(cat, f, v).value| && TieBreak(rank, WantedRows(cat, f, v, db))
    ensures TieBreak(rank, WantedOf(cat, f, v, Scan(db, Tables(cat, f, v).value[i])))
  {
    var ts := Tables(cat, f, v).value;
    WantedArmAt(cat, f, v, db, ts, i);
    ArmWithin(WantedArms(cat, f, v, db, ts), i);
    TieBreakWithin(rank, WantedRows(cat, f, v, db), WantedOf(cat, f, v, Scan(db, ts[i])));
  }

  lemma ArmNotMirror(cat: Catalog, f: Filters, v: Viewer, db: Database, i: nat)
    requires Tables(cat, f, v).Some? && i < |Tables(cat, f, v).value| && WellFormed(db)
    requires MIRROR !in Tables(cat, f, v).value
    ensures forall r :: r in WantedOf(cat, f, v, Scan(db, Tables(cat, f, v).value[i])) ==> r.table != MIRROR
  {
    var t := Tables(cat, f, v).value[i];
    WantedKeepsTable(cat, f, v, Scan(db, t), t);
    assert t in Tables(cat, f, v).value;
  }

  lemma RankedArmRuns(cat: Catalog, f: Filters, v: Viewer, p: Plan, db: Database, rank: Row -> int,
                      tops: seq<seq<Row>>, out: seq<Row>, page: seq<Row>, i: nat)
    requires f.page >= 1 && PlanCorrect(cat, f, v, p) && WellFormed(db) && MIRROR !in Tables(cat, f, v).value
    requires TieBreak(rank, WantedRows(cat, f, v, db)) && i < |tops|
    requires RunsBy(p, db, Ranked(rank), Ranked(rank), tops, out, page)
    ensures ArmRuns(p, db, Inner, i, tops[i])
  {
    var n, rows := f.limit + Offset(f), WantedOf(cat, f, v, Scan(db, Tables(cat, f, v).value[i]));
    ArmIsTop(cat, f, v, p, db, Ranked(rank), Ranked(rank), tops, out, page, i);
    ArmTieBreak(cat, f, v, db, rank, i);
    RankedIsTop(rank, rows, n, tops[i]);
    ArmNotMirror(cat, f, v, db, i);
    InnerKeys(rows, n, tops[i]);
    ArmMayRun(cat, f, v, p, db, Inner, tops[i], i);
  }

  /** Without the mirror arm such a run is one of the runs of the query as written. */
  lemma RankedRunExecutes(cat: Catalog, f: Filters, v: Viewer, p: Plan, db: Database, rank: Row -> int,
                          tops: seq<seq<Row>>, out: seq<Row>, page: seq<Row>)
    requires f.page >= 1 && PlanCorrect(cat, f, v, p) && WellFormed(db) && MIRROR !in Tables(cat, f, v).value
    requires TieBreak(rank, WantedRows(cat, f, v, db))
    requires RunsBy(p, db, Ranked(rank), Ranked(rank), tops, out, page)
    ensures Executes(p, db, tops, out, page)
  {
    forall i | 0 <= i < |tops| ensures ArmRuns(p, db, Inner, i, tops[i]) {
      RankedArmRuns(cat, f, v, p, db, rank, tops, out, page, i);
    }
    OuterSlice(cat, f, v, p, db, Ranked(rank), Ranked(rank), tops, out, page);
    TopsAreWanted(cat, f, v, p, db, rank, tops, out, page);
    RankedIsTop(rank, Flatten(tops), f.limit + Offset(f), out);
    PlanMayRun(cat, f, v, p, db, Inner, Outer, tops, out);
  }

  lemma TopsAreWanted(cat: Catalog, f: Filters, v: Viewer, p: Plan, db: Database, rank: Row -> int,
                      tops: seq<seq<Row>>, out: seq<Row>, page: seq<Row>)
    requires f.page >= 1 && PlanCorrect(cat, f, v, p) && WellFormed(db)
    requires TieBreak(rank, WantedRows(cat, f, v, db))
    requires RunsBy(p, db, Ranked(rank), Ranked(rank), tops, out, page)
    ensures TieBreak(rank, Flatten(tops))
  {
    var arms := WantedArms(cat, f, v, db, Tables(cat, f, v).value);
    RankedTops(cat, f, v, p, db, rank, tops, out, page);
    TopsWithinArms(arms, f.limit + Offset(f), tops, Ranked(rank));
    TieBreakWithin(rank, Flatten(arms), Flatten(tops));
  }

  /** Whatever the ties, consecutive pages of such a database tile the sorted rows: no gap, no
      repeat. Page k + 1 has the same filters and limit. */
  lemma CompiledPagesTile(cat: Catalog, f: Filters, v: Viewer, db: Database, rank: Row -> int, pages: seq<seq<Row>>)
    requires f.page >= 1 && Tables(cat, f, v).Some? && TieBreak(rank, WantedRows(cat, f, v, db))
    requires forall k :: 0 <= k < |pages| ==>
               IsPage(WantedRows(cat, f, v, db), Ranked(rank), f.limit, Offset(f.(page := k + 1)), pages[k])
    ensures var all := WantedRows(cat, f, v, db);
            && multiset(Sort(all, Ranked(rank))) == multiset(all) && |Sort(all, Ranked(rank))| == |all|
            && Flatten(pages) == Sort(all, Ranked(rank))[..Min(PageStart(|pages|, f.limit), |all|)]
  {
    var all := WantedRows(cat, f, v, db);
    TieBreakTellsApart(rank, all);
    forall k: nat | k < |pages| ensures IsPage(all, Ranked(rank), f.limit, PageStart(k, f.limit), pages[k]) {
      PageStartIs(k, f.limit);
    }
    PagesConcat(all, Ranked(rank), f.limit, pages);
  }

  /** Every ranking is some such run. */
  lemma RankedRunExists(cat: Catalog, f: Filters, v: Viewer, p: Plan, db: Database, rank: Row -> int)
    returns (tops: seq<seq<Row>>, out: seq<Row>)
    requires f.page >= 1 && PlanCorrect(cat, f, v, p) && WellFormed(db)
    ensures RunsBy(p, db, Ranked(rank), Ranked(rank), tops, out, out[Min(Offset(f), |out|)..])
  {
    var n, key := f.limit + Offset(f), Ranked(rank);
    tops := seq(|p.arms|, i requires 0 <= i < |p.arms| =>
      FirstOf(WantedOf(cat, f, v, Scan(db, p.arms[i].table)), key, n));
    forall i | 0 <= i < |tops| ensures ArmRuns(p, db, key, i, tops[i]) {
      FirstOfIsTop(WantedOf(cat, f, v, Scan(db, p.arms[i].table)), key, n);
      ArmMayRun(cat, f, v, p, db, key, tops[i], i);
    }
    out := FirstOf(Flatten(tops), key, n);
    FirstOfIsTop(Flatten(tops), key, n);
    PlanMayRun(cat, f, v, p, db, key, key, tops, out);
  }

  function FirstOf(rows: seq<Row>, level: Level, n: nat): seq<Row> {
    Sort(rows, level)[..Min(n, |Sort(rows, level)|)]
  }

  lemma FirstOfIsTop(rows: seq<Row>, level: Level, n: nat)
    ensures IsTop(rows, level, n, FirstOf(rows, level, n))
  {
    SortIsTop(rows, level);
    if n <= |rows| { PrefixIsTop(rows, level, |rows|, Sort(rows, level), n); }
    else { assert FirstOf(rows, level, n) == Sort(rows, level); }
  }
}
