/** Where the compiled audit query stops meaning what it says, and the by-id history query. */
module AuditLimits {
  import opened Common
  import opened AuditTopN
  import opened AuditQuery

  // ---- The mirror arm -------------------------------------------------------------------

  /** Every run of the plan gives a page the direct query may give. */
  ghost predicate AlwaysAnswers(cat: Catalog, f: Filters, v: Viewer, p: Plan)
    requires f.page >= 1 && Tables(cat, f, v).Some?
  {
    forall db: Database, tops, out, page ::
      WellFormed(db) && Executes(p, db, tops, out, page) ==> Answers(cat, f, v, db, page)
  }

  predicate EmptyWindow(f: Filters) {
    f.startDate.Some? && f.endDate.Some? && f.startDate.value > f.endDate.value
  }

  /** An instant for open sessions to start and one, no earlier, for closed ones to end. */
  function Opening(f: Filters): int {
    if f.startDate.Some? then f.startDate.value else if f.endDate.Some? then f.endDate.value - 1 else 0
  }

  function Closing(f: Filters): int {
    if f.endDate.Some? then f.endDate.value else Opening(f) + 1
  }

  function FilterActor(f: Filters): Option<string> {
    if Truthy(f.actorId) then f.actorId else None
  }

  /** A mirror session that passes the filters: still open, or closed. */
  predicate Session(f: Filters, r: Row, open: bool) {
    r.table == MIRROR && r.actor == FilterActor(f) && r.from == Opening(f)
    && r.to == (if open then None else Some(Closing(f)))
  }

  /** As many open sessions, and as many closed ones, as the arm may keep. */
  predicate Sessions(f: Filters, n: nat, opens: seq<Row>, closeds: seq<Row>) {
    && |opens| == n && |closeds| == n
    && (forall r :: r in opens ==> Session(f, r, true))
    && (forall r :: r in closeds ==> Session(f, r, false))
  }

  lemma {:induction false} AllWanted(cat: Catalog, f: Filters, v: Viewer, rows: seq<Row>)
    requires forall r :: r in rows ==> Wanted(cat, f, v, r)
    ensures WantedOf(cat, f, v, rows) == rows
  {
    if rows != [] {
      assert rows[0] in rows;
      AllWanted(cat, f, v, rows[1..]);
    }
  }

  lemma SessionsWanted(cat: Catalog, f: Filters, v: Viewer, n: nat, opens: seq<Row>, closeds: seq<Row>)
    requires !Scoped(v) && !EmptyWindow(f) && Sessions(f, n, opens, closeds)
    ensures WantedOf(cat, f, v, opens + closeds) == opens + closeds
  {
    AllWanted(cat, f, v, opens + closeds);
  }

  /** By its own key the arm may keep just the closed sessions. */
  lemma ClosedMayWin(f: Filters, n: nat, opens: seq<Row>, closeds: seq<Row>)
    requires !EmptyWindow(f) && Sessions(f, n, opens, closeds)
    ensures IsTop(opens + closeds, Inner, n, closeds)
  {
    forall r | r in multiset(opens + closeds) - multiset(closeds) ensures Key(r, Inner) == Some(Opening(f)) {
      assert r in opens;
    }
    forall i | 0 <= i < |closeds| ensures Key(closeds[i], Inner) == Some(Closing(f)) {
      assert closeds[i] in closeds;
    }
  }

  lemma SameMembers(a: seq<Row>, b: seq<Row>)
    requires multiset(a) == multiset(b)
    ensures forall r :: r in a <==> r in b
  {
    forall r ensures r in a <==> r in b {
      assert r in multiset(a) <==> r in multiset(b);
    }
  }

  /** By the outer key every open session comes before any closed one. */
  lemma OpensMustWin(f: Filters, n: nat, opens: seq<Row>, closeds: seq<Row>, out: seq<Row>)
    requires Sessions(f, n, opens, closeds) && IsTop(opens + closeds, Outer, n, out)
    ensures forall r :: r in out ==> r.to.None?
  {
    forall c | c in out ensures c.to.None? {
      if c.to.Some? {
        forall r | r in opens ensures multiset(opens)[r] <= multiset(out)[r] {
          assert r !in multiset(opens + closeds) - multiset(out);
        }
        SubsetSize(opens, out);
        SubsetOfSameSize(opens, out);
        SameMembers(opens, out);
      }
    }
  }

  ghost predicate Once(ts: seq<string>, t: string) {
    exists i :: 0 <= i < |ts| && ts[i] == t && forall j :: 0 <= j < |ts| && ts[j] == t ==> i == j
  }

  function OnlyAt(n: nat, i: nat, rows: seq<Row>): seq<seq<Row>> {
    seq(n, j => if j == i then rows else [])
  }

  lemma {:induction false} FlattenEmpty(arms: seq<seq<Row>>)
    requires forall j :: 0 <= j < |arms| ==> arms[j] == []
    ensures Flatten(arms) == []
  {
    if arms != [] { FlattenEmpty(arms[1..]); }
  }

  lemma {:induction false} FlattenOnly(arms: seq<seq<Row>>, i: nat)
    requires i < |arms| && forall j :: 0 <= j < |arms| && j != i ==> arms[j] == []
    ensures Flatten(arms) == arms[i]
  {
    if i == 0 { FlattenEmpty(arms[1..]); }
    else { FlattenOnly(arms[1..], i - 1); }
  }

  lemma WholeIsTop(rows: seq<Row>, f: Filters)
    requires forall r :: r in rows ==> Session(f, r, false)
    ensures IsTop(rows, Outer, |rows|, rows)
  {
    forall i | 0 <= i < |rows| ensures Key(rows[i], Outer) == Some(Closing(f)) {
      assert rows[i] in rows;
    }
  }

  lemma OnlyMirrorRows(cat: Catalog, f: Filters, v: Viewer, rows: seq<Row>, ts: seq<string>, i: nat)
    requires i < |ts| && ts[i] == MIRROR
    requires forall j :: 0 <= j < |ts| && j != i ==> ts[j] != MIRROR
    requires WantedOf(cat, f, v, rows) == rows
    ensures Flatten(WantedArms(cat, f, v, map[MIRROR := rows], ts)) == rows
  {
    var db: Database := map[MIRROR := rows];
    var arms := WantedArms(cat, f, v, db, ts);
    WantedArmAt(cat, f, v, db, ts, i);
    forall j | 0 <= j < |arms| && j != i ensures arms[j] == [] { WantedArmAt(cat, f, v, db, ts, j); }
    FlattenOnly(arms, i);
  }

  /** The direct query over these sessions shows open ones only. */
  lemma OnlyOpenAnswers(cat: Catalog, f: Filters, v: Viewer, n: nat, opens: seq<Row>, closeds: seq<Row>,
                        page: seq<Row>, i: nat)
    requires f.page >= 1 && Tables(cat, f, v).Some? && f.limit >= 1 && !Scoped(v) && !EmptyWindow(f)
    requires i < |Tables(cat, f, v).value| && Tables(cat, f, v).value[i] == MIRROR
    requires forall j :: 0 <= j < |Tables(cat, f, v).value| && j != i ==> Tables(cat, f, v).value[j] != MIRROR
    requires n == f.limit + Offset(f) && Sessions(f, n, opens, closeds)
    requires Answers(cat, f, v, map[MIRROR := opens + closeds], page)
    ensures |page| >= 1 && page[0].to.None?
  {
    SessionsWanted(cat, f, v, n, opens, closeds);
    OnlyMirrorRows(cat, f, v, opens + closeds, Tables(cat, f, v).value, i);
    var out :| IsTop(opens + closeds, Outer, n, out) && page == out[Min(Offset(f), |out|)..];
    OpensMustWin(f, n, opens, closeds, out);
    assert page[0] in out;
  }

  lemma ClosedArm(cat: Catalog, f: Filters, v: Viewer, p: Plan, n: nat, opens: seq<Row>, closeds: seq<Row>, j: nat)
    requires f.page >= 1 && PlanCorrect(cat, f, v, p) && !Scoped(v) && !EmptyWindow(f) && j < |p.arms|
    requires n == f.limit + Offset(f) && Sessions(f, n, opens, closeds)
    ensures ArmRuns(p, map[MIRROR := opens + closeds], Inner, j, if p.arms[j].table == MIRROR then closeds else [])
  {
    var db: Database := map[MIRROR := opens + closeds];
    if p.arms[j].table == MIRROR {
      SessionsWanted(cat, f, v, n, opens, closeds);
      ClosedMayWin(f, n, opens, closeds);
      ArmMayRun(cat, f, v, p, db, Inner, closeds, j);
    } else {
      ArmMayRun(cat, f, v, p, db, Inner, [], j);
    }
  }

  lemma ClosedTop(f: Filters, m: nat, i: nat, n: nat, opens: seq<Row>, closeds: seq<Row>)
    requires i < m && Sessions(f, n, opens, closeds)
    ensures IsTop(Flatten(OnlyAt(m, i, closeds)), Outer, n, closeds)
  {
    FlattenOnly(OnlyAt(m, i, closeds), i);
    WholeIsTop(closeds, f);
  }

  /** A run in which the mirror arm keeps the closed sessions and the other arms are empty. */
  lemma ClosedRun(cat: Catalog, f: Filters, v: Viewer, p: Plan, n: nat, opens: seq<Row>, closeds: seq<Row>, i: nat)
    returns (tops: seq<seq<Row>>)
    requires f.page >= 1 && PlanCorrect(cat, f, v, p) && !Scoped(v) && !EmptyWindow(f)
    requires i < |p.arms| && p.arms[i].table == MIRROR
    requires forall j :: 0 <= j < |p.arms| && j != i ==> p.arms[j].table != MIRROR
    requires n == f.limit + Offset(f) && Sessions(f, n, opens, closeds) && WellFormed(map[MIRROR := opens + closeds])
    ensures Executes(p, map[MIRROR := opens + closeds], tops, closeds, closeds[Min(Offset(f), n)..])
  {
    var db: Database := map[MIRROR := opens + closeds];
    tops := OnlyAt(|p.arms|, i, closeds);
    forall j | 0 <= j < |tops| ensures ArmRuns(p, db, Inner, j, tops[j]) {
      ClosedArm(cat, f, v, p, n, opens, closeds, j);
    }
    ClosedTop(f, |p.arms|, i, n, opens, closeds);
    PlanMayRun(cat, f, v, p, db, Inner, Outer, tops, closeds);
  }

  lemma SessionsWellFormed(f: Filters, n: nat, opens: seq<Row>, closeds: seq<Row>)
    requires Sessions(f, n, opens, closeds)
    ensures WellFormed(map[MIRROR := opens + closeds])
  {
  }

  lemma Misled(cat: Catalog, f: Filters, v: Viewer, p: Plan, db: Database,
               tops: seq<seq<Row>>, out: seq<Row>, page: seq<Row>)
    requires f.page >= 1 && Tables(cat, f, v).Some?
    requires WellFormed(db) && Executes(p, db, tops, out, page) && !Answers(cat, f, v, db, page)
    ensures !AlwaysAnswers(cat, f, v, p)
  {
  }

  lemma SomeSessions(f: Filters, n: nat) returns (opens: seq<Row>, closeds: seq<Row>)
    ensures Sessions(f, n, opens, closeds)
  {
    opens := seq(n, k => Row(MIRROR, "open", FilterActor(f), None, Opening(f), None));
    closeds := seq(n, k => Row(MIRROR, "closed", FilterActor(f), None, Opening(f), Some(Closing(f))));
  }

  lemma ClosedPage(f: Filters, n: nat, opens: seq<Row>, closeds: seq<Row>)
    requires f.page >= 1 && f.limit >= 1 && n == f.limit + Offset(f) && Sessions(f, n, opens, closeds)
    ensures var page := closeds[Min(Offset(f), n)..]; |page| >= 1 && page[0].to.Some?
  {
    var page := closeds[Min(Offset(f), n)..];
    assert page[0] in closeds;
  }

  lemma MirrorArmMisleads(cat: Catalog, f: Filters, v: Viewer, p: Plan, i: nat)
    requires f.page >= 1 && PlanCorrect(cat, f, v, p) && f.limit >= 1 && !Scoped(v) && !EmptyWindow(f)
    requires i < |p.arms| && Tables(cat, f, v).value[i] == MIRROR
    requires forall j :: 0 <= j < |p.arms| && j != i ==> Tables(cat, f, v).value[j] != MIRROR
    ensures !AlwaysAnswers(cat, f, v, p)
  {
    var n := f.limit + Offset(f);
    var opens, closeds := SomeSessions(f, n);
    var page := closeds[Min(Offset(f), n)..];
    var tops := ClosedRun(cat, f, v, p, n, opens, closeds, i);
    ClosedPage(f, n, opens, closeds);
    if Answers(cat, f, v, map[MIRROR := opens + closeds], page) {
      OnlyOpenAnswers(cat, f, v, n, opens, closeds, page, i);
    } else {
      SessionsWellFormed(f, n, opens, closeds);
      Misled(cat, f, v, p, map[MIRROR := opens + closeds], tops, closeds, page);
    }
  }

  /** The rewriting is right for every database exactly when the mirror arm is not selected
      (or nothing can be shown): a session still open sorts by its start inside the arm but
      before everything else outside it. */
  lemma MirrorPushdownIff(cat: Catalog, f: Filters, v: Viewer, p: Plan)
    requires f.page >= 1 && PlanCorrect(cat, f, v, p) && !EmptyWindow(f) && f.limit >= 1
    requires MIRROR in Tables(cat, f, v).value ==> Once(Tables(cat, f, v).value, MIRROR)
    ensures AlwaysAnswers(cat, f, v, p) <==> MIRROR !in Tables(cat, f, v).value
  {
    if MIRROR in Tables(cat, f, v).value {
      ScopedTables(cat, KeepExisting(cat, if Truthy(f.tableName) then [f.tableName.value] else cat.auditable));
      var i :| 0 <= i < |Tables(cat, f, v).value| && Tables(cat, f, v).value[i] == MIRROR
            && forall j :: 0 <= j < |Tables(cat, f, v).value| && Tables(cat, f, v).value[j] == MIRROR ==> i == j;
      MirrorArmMisleads(cat, f, v, p, i);
    } else {
      forall db: Database, tops, out, page | WellFormed(db) && Executes(p, db, tops, out, page)
        ensures Answers(cat, f, v, db, page)
      {
        CompiledAnswers(cat, f, v, p, db, tops, out, page);
      }
    }
  }

  // ---- One record's history -------------------------------------------------------------

  /** The extra conjunct of a by-id query; `ks` are its placeholders. */
  datatype Clause = Free | BranchOneOf(ks: seq<nat>)

  /** None: the record is out of the viewer's scope, whatever it is. */
  function RecordScope(cat: Catalog, t: string, viewer: Option<Viewer>, startIndex: nat)
    : Option<(Clause, seq<string>)>
  {
    if viewer.None? || !Scoped(viewer.value) then Some((Free, []))
    else if !HasBranch(cat, t) then None
    else if ScopedToBranch(viewer.value) then
      Some((BranchOneOf([startIndex]), [viewer.value.currentBranchId.value]))
    else
      var ids := viewer.value.effectiveBranchIds.value;
      Some((BranchOneOf(Numbered(startIndex, |ids|)), ids))
  }

  predicate InScope(cat: Catalog, viewer: Option<Viewer>, row: Row) {
    viewer.Some? && Scoped(viewer.value) ==>
      && HasBranch(cat, row.table) && row.branch.Some?
      && (if ScopedToBranch(viewer.value) then row.branch == viewer.value.currentBranchId
          else row.branch.value in viewer.value.effectiveBranchIds.value)
  }

  predicate ClauseBound(c: Clause, params: seq<Value>) {
    c.BranchOneOf? ==> forall k :: k in c.ks ==> 1 <= k <= |params| && params[k - 1].Text?
  }

  predicate ClauseHolds(c: Clause, params: seq<Value>, row: Row)
    requires ClauseBound(c, params)
  {
    c.BranchOneOf? ==> row.branch.Some? && exists k :: k in c.ks && params[k - 1].s == row.branch.value
  }

  function AsValues(ids: seq<string>): seq<Value> {
    seq(|ids|, i requires 0 <= i < |ids| => Text(ids[i]))
  }

  function Numbered(start: nat, n: nat): seq<nat> {
    seq(n, i requires 0 <= i < n => i + start)
  }

  lemma OneOfMeaning(ids: seq<string>, row: Row, lead: seq<Value>, trail: seq<Value>)
    ensures var params, c := lead + AsValues(ids) + trail, BranchOneOf(Numbered(|lead| + 1, |ids|));
            && ClauseBound(c, params)
            && (ClauseHolds(c, params, row) <==> row.branch.Some? && row.branch.value in ids)
  {
    var params, ks := lead + AsValues(ids) + trail, Numbered(|lead| + 1, |ids|);
    forall k | k in ks
      ensures 1 <= k <= |params| && k - |lead| - 1 < |ids| && params[k - 1] == Text(ids[k - |lead| - 1])
    {
      assert params[k - 1] == AsValues(ids)[k - 1 - |lead|];
    }
    if row.branch.Some? && row.branch.value in ids {
      var i :| 0 <= i < |ids| && ids[i] == row.branch.value;
      assert ks[i] in ks && ks[i] == i + |lead| + 1;
    }
  }

  /** After any `startIndex - 1` leading parameters and before any trailing ones, the clause's
      placeholders hit exactly the scope's own parameters and mean the viewer's scope. */
  lemma RecordScopeMeaning(cat: Catalog, viewer: Option<Viewer>, row: Row, lead: seq<Value>, trail: seq<Value>)
    ensures var scope := RecordScope(cat, row.table, viewer, |lead| + 1);
            && (scope.None? ==> !InScope(cat, viewer, row))
            && (scope.Some? ==>
                  var params := lead + AsValues(scope.value.1) + trail;
                  ClauseBound(scope.value.0, params)
                  && (ClauseHolds(scope.value.0, params, row) <==> InScope(cat, viewer, row)))
  {
    var scope := RecordScope(cat, row.table, viewer, |lead| + 1);
    if scope.Some? && scope.value.0.BranchOneOf? {
      OneOfMeaning(scope.value.1, row, lead, trail);
      assert scope.value.0.ks == Numbered(|lead| + 1, |scope.value.1|);
    }
  }

  /** `WHERE id = $1 <scope> LIMIT $(n+2) OFFSET $(n+3)` over the id, n scope parameters, the
      limit and the offset: every number hits its own parameter. */
  lemma RecordHistoryBinds(cat: Catalog, viewer: Option<Viewer>, row: Row, id: string, limit: nat, offset: nat)
    requires RecordScope(cat, row.table, viewer, 2).Some?
    ensures var scope := RecordScope(cat, row.table, viewer, 2).value;
            var n := |scope.1|;
            var params := [Text(id)] + AsValues(scope.1) + [Num(limit), Num(offset)];
            && |params| == n + 3 && params[0] == Text(id)
            && params[n + 1] == Num(limit) && params[n + 2] == Num(offset)
            && ClauseBound(scope.0, params)
            && (ClauseHolds(scope.0, params, row) <==> InScope(cat, viewer, row))
  {
    RecordScopeMeaning(cat, viewer, row, [Text(id)], [Num(limit), Num(offset)]);
  }

  /** The same clause behind the two parameters of the point-in-time query. */
  lemma TimeTravelBinds(cat: Catalog, viewer: Option<Viewer>, row: Row, id: string, asOf: int)
    requires RecordScope(cat, row.table, viewer, 3).Some?
    ensures var scope := RecordScope(cat, row.table, viewer, 3).value;
            var params := [Text(id), Time(asOf)] + AsValues(scope.1);
            && params[0] == Text(id) && params[1] == Time(asOf)
            && ClauseBound(scope.0, params)
            && (ClauseHolds(scope.0, params, row) <==> InScope(cat, viewer, row))
  {
    RecordScopeMeaning(cat, viewer, row, [Text(id), Time(asOf)], []);
    var params := [Text(id), Time(asOf)] + AsValues(RecordScope(cat, row.table, viewer, 3).value.1);
    assert params + [] == params;
  }
}
