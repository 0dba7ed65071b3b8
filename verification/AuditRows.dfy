/** Which rows the compiled audit query may show, in terms of the request, the viewer and the
    database alone. */
module AuditRows {
  import opened Common
  import opened AuditTopN
  import opened AuditQuery
  import opened AuditLimits

  // ---- The request, spelled out -----------------------------------------------------------

  /** A branch viewer of the audit log with a branch, or anyone with a company. */
  predicate IsConfined(v: Viewer) {
    || (v.auditScoped && v.currentBranchId.Some? && v.currentBranchId.value != "")
    || (v.effectiveBranchIds.Some? && v.effectiveBranchIds.value != [])
  }

  predicate TakesPart(cat: Catalog, f: Filters, v: Viewer, t: string) {
    && (if f.tableName.Some? && f.tableName.value != "" then t == f.tableName.value else t in cat.auditable)
    && (t == "mirror_sessions" || t in cat.existing)
    && (IsConfined(v) ==> t != "mirror_sessions" && (t == "users" || t in cat.withBranch))
  }

  /** When a row's change happened: a mirror session still open counts by its start. */
  function Happened(r: Row): Option<int> {
    if r.table == "mirror_sessions" && r.to.None? then Some(r.from) else r.to
  }

  /** The branches that a viewer may see rows of: the own one, else those of the company. */
  predicate MaySee(v: Viewer, branch: Option<string>) {
    if v.auditScoped && v.currentBranchId.Some? && v.currentBranchId.value != ""
    then branch == v.currentBranchId
    else IsConfined(v) ==> branch.Some? && branch.value in v.effectiveBranchIds.value
  }

  predicate Passes(cat: Catalog, f: Filters, v: Viewer, r: Row) {
    && (f.actorId.Some? && f.actorId.value != "" ==> r.actor == f.actorId)
    && (f.startDate.Some? ==> Happened(r).Some? && f.startDate.value <= Happened(r).value)
    && (f.endDate.Some? ==> Happened(r).Some? && Happened(r).value <= f.endDate.value)
    && (r.table == "users" || r.table in cat.withBranch ==> MaySee(v, r.branch))
  }

  lemma ConfinedIs(v: Viewer)
    ensures Scoped(v) <==> IsConfined(v)
  {
  }

  /** A table is queried exactly if it is asked for, has a history or is the mirror log, and, for a
      confined viewer, is not the mirror log and carries a branch. */
  lemma TakesPartIff(cat: Catalog, f: Filters, v: Viewer, t: string)
    requires Tables(cat, f, v).Some?
    ensures t in Tables(cat, f, v).value <==> TakesPart(cat, f, v, t)
  {
    TablesAre(cat, f, v);
    ConfinedIs(v);
  }

  lemma WantedPasses(cat: Catalog, f: Filters, v: Viewer, r: Row)
    ensures Wanted(cat, f, v, r) <==> Passes(cat, f, v, r)
  {
  }

  // ---- The rows of a page -----------------------------------------------------------------

  lemma {:induction false} InFlatten(arms: seq<seq<Row>>, r: Row)
    ensures r in Flatten(arms) <==> exists i :: 0 <= i < |arms| && r in arms[i]
  {
    if arms != [] {
      InFlatten(arms[1..], r);
      if i :| 0 <= i < |arms| && r in arms[i] {
        if i > 0 { assert arms[1..][i - 1] == arms[i]; }
      }
      if i :| 0 <= i < |arms[1..]| && r in arms[1..][i] { assert arms[i + 1] == arms[1..][i]; }
    }
  }

  lemma {:induction false} InWanted(cat: Catalog, f: Filters, v: Viewer, rows: seq<Row>, r: Row)
    ensures r in WantedOf(cat, f, v, rows) <==> r in rows && Wanted(cat, f, v, r)
  {
    if rows != [] {
      InWanted(cat, f, v, rows[1..], r);
      assert rows == [rows[0]] + rows[1..];
    }
  }

  /** The row is in the database, in a table that takes part, and passes the request. */
  predicate Eligible(cat: Catalog, f: Filters, v: Viewer, db: Database, r: Row) {
    r.table in db && r in db[r.table] && TakesPart(cat, f, v, r.table) && Passes(cat, f, v, r)
  }

  lemma ArmHas(cat: Catalog, f: Filters, v: Viewer, db: Database, t: string, r: Row)
    requires WellFormed(db) && Tables(cat, f, v).Some? && t in Tables(cat, f, v).value
    ensures r in WantedOf(cat, f, v, Scan(db, t)) <==> r.table == t && Eligible(cat, f, v, db, r)
  {
    TakesPartIff(cat, f, v, t);
    InWanted(cat, f, v, Scan(db, t), r);
    WantedPasses(cat, f, v, r);
  }

  /** Whatever the ties, and with the mirror log or without: a page shows eligible rows only. */
  lemma PageRows(cat: Catalog, f: Filters, v: Viewer, p: Plan, db: Database,
                 tops: seq<seq<Row>>, out: seq<Row>, page: seq<Row>, r: Row)
    requires f.page >= 1 && PlanCorrect(cat, f, v, p) && WellFormed(db) && Executes(p, db, tops, out, page)
    requires r in page
    ensures Eligible(cat, f, v, db, r)
  {
    OuterSlice(cat, f, v, p, db, Inner, Outer, tops, out, page);
    assert r in multiset(out) && r in multiset(Flatten(tops));
    InFlatten(tops, r);
    var i :| 0 <= i < |tops| && r in tops[i];
    ArmIsTop(cat, f, v, p, db, Inner, Outer, tops, out, page, i);
    assert r in multiset(tops[i]);
    assert r in multiset(WantedOf(cat, f, v, Scan(db, p.arms[i].table)));
    assert p.arms[i].table in Tables(cat, f, v).value;
    ArmHas(cat, f, v, db, p.arms[i].table, r);
  }

  lemma {:induction false} SameBags(arms: seq<seq<Row>>, tops: seq<seq<Row>>)
    requires |arms| == |tops| && forall i :: 0 <= i < |arms| ==> multiset(arms[i]) == multiset(tops[i])
    ensures multiset(Flatten(arms)) == multiset(Flatten(tops)) && |Flatten(arms)| == |Flatten(tops)|
  {
    if arms != [] {
      SameBags(arms[1..], tops[1..]);
      assert |multiset(arms[0])| == |arms[0]| && |multiset(tops[0])| == |tops[0]|;
    }
  }

  lemma {:induction false} ArmFits(arms: seq<seq<Row>>, i: nat)
    requires i < |arms|
    ensures |arms[i]| <= |Flatten(arms)|
  {
    if i > 0 { ArmFits(arms[1..], i - 1); }
  }

  lemma WholeTop(rows: seq<Row>, level: Level, n: nat, out: seq<Row>)
    requires IsTop(rows, level, n, out) && |rows| <= n
    ensures multiset(out) == multiset(rows)
  {
    SubsetOfSameSize(out, rows);
  }

  lemma ArmsWhole(cat: Catalog, f: Filters, v: Viewer, p: Plan, db: Database,
                  tops: seq<seq<Row>>, out: seq<Row>, page: seq<Row>)
    requires f.page == 1 && PlanCorrect(cat, f, v, p) && WellFormed(db) && Executes(p, db, tops, out, page)
    requires |WantedRows(cat, f, v, db)| <= f.limit
    ensures multiset(Flatten(tops)) == multiset(WantedRows(cat, f, v, db))
    ensures |Flatten(tops)| == |WantedRows(cat, f, v, db)|
  {
    var ts := Tables(cat, f, v).value;
    var arms := WantedArms(cat, f, v, db, ts);
    if ts != [] { WantedArmAt(cat, f, v, db, ts, 0); }
    forall i | 0 <= i < |tops| ensures multiset(tops[i]) == multiset(arms[i]) {
      WantedArmAt(cat, f, v, db, ts, i);
      ArmIsTop(cat, f, v, p, db, Inner, Outer, tops, out, page, i);
      ArmFits(arms, i);
      WholeTop(arms[i], Inner, f.limit + Offset(f), tops[i]);
    }
    SameBags(tops, arms);
  }

  lemma WholePage(rows: seq<Row>, all: seq<Row>, limit: nat, out: seq<Row>, page: seq<Row>)
    requires IsTop(rows, Outer, limit, out) && |rows| <= limit && multiset(rows) == multiset(all)
    requires page == out[Min(0, |out|)..]
    ensures multiset(page) == multiset(all)
  {
    WholeTop(rows, Outer, limit, out);
    assert page == out;
  }

  lemma InBag(a: seq<Row>, b: seq<Row>, r: Row)
    requires multiset(a) == multiset(b)
    ensures r in a <==> r in b
  {
    assert r in a <==> r in multiset(a);
  }

  lemma OuterWhole(f: Filters, rows: seq<Row>, out: seq<Row>, page: seq<Row>)
    requires f.page == 1 && IsTop(rows, Outer, f.limit + Offset(f), out) && page == out[Min(Offset(f), |out|)..]
    ensures IsTop(rows, Outer, f.limit, out) && page == out[Min(0, |out|)..]
  {
    assert Offset(f) == 0;
  }

  lemma WholePageBag(cat: Catalog, f: Filters, v: Viewer, p: Plan, db: Database,
                     tops: seq<seq<Row>>, out: seq<Row>, page: seq<Row>)
    requires f.page == 1 && PlanCorrect(cat, f, v, p) && WellFormed(db) && Executes(p, db, tops, out, page)
    requires |WantedRows(cat, f, v, db)| <= f.limit
    ensures multiset(page) == multiset(WantedRows(cat, f, v, db))
  {
    OuterSlice(cat, f, v, p, db, Inner, Outer, tops, out, page);
    OuterWhole(f, Flatten(tops), out, page);
    ArmsWhole(cat, f, v, p, db, tops, out, page);
    WholePage(Flatten(tops), WantedRows(cat, f, v, db), f.limit, out, page);
  }

  /** A first page with room for everything shows exactly the eligible rows, each as often as the
      database has it in the tables of the query. */
  lemma WholePageIff(cat: Catalog, f: Filters, v: Viewer, p: Plan, db: Database,
                     tops: seq<seq<Row>>, out: seq<Row>, page: seq<Row>, r: Row)
    requires f.page == 1 && PlanCorrect(cat, f, v, p) && WellFormed(db) && Executes(p, db, tops, out, page)
    requires |WantedRows(cat, f, v, db)| <= f.limit
    ensures multiset(page) == multiset(WantedRows(cat, f, v, db))
    ensures r in page <==> Eligible(cat, f, v, db, r)
  {
    WholePageBag(cat, f, v, p, db, tops, out, page);
    InBag(page, WantedRows(cat, f, v, db), r);
    InWantedRows(cat, f, v, db, r);
  }

  lemma InWantedRows(cat: Catalog, f: Filters, v: Viewer, db: Database, r: Row)
    requires WellFormed(db) && Tables(cat, f, v).Some?
    ensures r in WantedRows(cat, f, v, db) <==> Eligible(cat, f, v, db, r)
  {
    var ts := Tables(cat, f, v).value;
    var arms := WantedArms(cat, f, v, db, ts);
    InFlatten(arms, r);
    if ts != [] { WantedArmAt(cat, f, v, db, ts, 0); }
    forall i | 0 <= i < |ts| ensures r in arms[i] <==> r.table == ts[i] && Eligible(cat, f, v, db, r) {
      WantedArmAt(cat, f, v, db, ts, i);
      assert ts[i] in ts;
      ArmHas(cat, f, v, db, ts[i], r);
    }
    TakesPartIff(cat, f, v, r.table);
  }

  // ---- The log and the history of one record ----------------------------------------------

  /** The history of one record is open to a viewer exactly if they are not confined or the table
      carries a branch and the row's is one that they may see. */
  lemma RecordScopeIs(cat: Catalog, v: Viewer, r: Row)
    ensures InScope(cat, Some(v), r)
       <==> (IsConfined(v) ==> (r.table == "users" || r.table in cat.withBranch) && MaySee(v, r.branch))
    ensures InScope(cat, None, r)
  {
    ConfinedIs(v);
  }

  /** The two agree: a row of a history table is in the unfiltered log of a viewer exactly if its
      record is open to them. */
  lemma LogMatchesRecord(cat: Catalog, f: Filters, v: Viewer, db: Database, r: Row)
    requires f == Filters(None, None, None, None, f.page, f.limit) && r.table != "mirror_sessions"
    requires r.table in db && r in db[r.table] && r.table in cat.auditable && r.table in cat.existing
    ensures Eligible(cat, f, v, db, r) <==> InScope(cat, Some(v), r)
  {
    RecordScopeIs(cat, v, r);
  }
}
