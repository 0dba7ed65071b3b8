/** The total of the audit query and the key under which it is cached: what a total depends on,
    and which requests may share one. */
module AuditCount {
  import opened Common
  import opened AuditTopN
  import opened AuditQuery
  import opened AuditLimits

  datatype CountKey = CountKey(
    tables: seq<string>, actorId: Option<string>, startDate: Option<int>, endDate: Option<int>,
    branchId: Option<string>)

  function KeyOf(cat: Catalog, f: Filters, v: Viewer): CountKey
    requires Tables(cat, f, v).Some?
  {
    CountKey(Tables(cat, f, v).value, f.actorId, f.startDate, f.endDate,
             if ScopedToBranch(v) then v.currentBranchId else None)
  }

  function Total(cat: Catalog, f: Filters, v: Viewer, db: Database): nat
    requires Tables(cat, f, v).Some?
  {
    |Flatten(WantedArms(cat, f, v, db, Tables(cat, f, v).value))|
  }

  /** The branches a company-scoped viewer is confined to; None for everyone else. */
  function Company(v: Viewer): Option<set<string>> {
    if ScopedToGroup(v) then Some(set b | b in v.effectiveBranchIds.value) else None
  }

  /** The branches any viewer is confined to; None for everywhere. */
  function Confined(v: Viewer): Option<set<string>> {
    if ScopedToBranch(v) then Some({v.currentBranchId.value}) else Company(v)
  }

  predicate Within(f: Filters, time: int) {
    (f.startDate.Some? ==> time >= f.startDate.value) && (f.endDate.Some? ==> time <= f.endDate.value)
  }

  predicate Lets(c: Option<set<string>>, branch: Option<string>) {
    c.Some? ==> branch.Some? && branch.value in c.value
  }

  /** Nothing to count: no table, or a window that ends before it starts. */
  predicate Idle(cat: Catalog, f: Filters, v: Viewer)
    requires Tables(cat, f, v).Some?
  {
    Tables(cat, f, v).value == [] || EmptyWindow(f)
  }

  /** The same question: the tables in whatever order, the actor, the window and, where a table has
      branches, the branches. */
  predicate SameQuestion(cat: Catalog, f: Filters, v: Viewer, g: Filters, w: Viewer)
    requires Tables(cat, f, v).Some? && Tables(cat, g, w).Some?
  {
    && multiset(Tables(cat, f, v).value) == multiset(Tables(cat, g, w).value)
    && FilterActor(f) == FilterActor(g) && f.startDate == g.startDate && f.endDate == g.endDate
    && (Confined(v) == Confined(w) || forall t :: t in Tables(cat, f, v).value ==> !HasBranch(cat, t))
  }

  ghost predicate TotalsAgree(cat: Catalog, f: Filters, v: Viewer, g: Filters, w: Viewer)
    requires Tables(cat, f, v).Some? && Tables(cat, g, w).Some?
  {
    forall db: Database :: WellFormed(db) ==> Total(cat, f, v, db) == Total(cat, g, w, db)
  }

  // ---- The same question has the same total ----------------------------------------------

  lemma WantedIs(cat: Catalog, f: Filters, v: Viewer, row: Row)
    ensures Wanted(cat, f, v, row)
       <==> && (FilterActor(f).Some? ==> row.actor == FilterActor(f))
            && (f.startDate.Some? || f.endDate.Some? ==>
                  Key(row, Inner).Some? && Within(f, Key(row, Inner).value))
            && (HasBranch(cat, row.table) ==> Lets(Confined(v), row.branch))
  {
  }

  lemma {:induction false} SameWanted(cat: Catalog, f: Filters, v: Viewer, g: Filters, w: Viewer, rows: seq<Row>)
    requires forall r :: r in rows ==> (Wanted(cat, f, v, r) <==> Wanted(cat, g, w, r))
    ensures WantedOf(cat, f, v, rows) == WantedOf(cat, g, w, rows)
  {
    if rows != [] {
      assert rows[0] in rows;
      SameWanted(cat, f, v, g, w, rows[1..]);
    }
  }

  lemma SameArm(cat: Catalog, f: Filters, v: Viewer, g: Filters, w: Viewer, db: Database, t: string)
    requires WellFormed(db) && (Confined(v) == Confined(w) || !HasBranch(cat, t))
    requires FilterActor(f) == FilterActor(g) && f.startDate == g.startDate && f.endDate == g.endDate
    ensures WantedOf(cat, f, v, Scan(db, t)) == WantedOf(cat, g, w, Scan(db, t))
  {
    forall r | r in Scan(db, t) ensures Wanted(cat, f, v, r) <==> Wanted(cat, g, w, r) {
      WantedIs(cat, f, v, r);
      WantedIs(cat, g, w, r);
    }
    SameWanted(cat, f, v, g, w, Scan(db, t));
  }

  lemma {:induction false} SameArms(cat: Catalog, f: Filters, v: Viewer, g: Filters, w: Viewer, db: Database,
                                    ts: seq<string>)
    requires WellFormed(db) && (Confined(v) == Confined(w) || forall t :: t in ts ==> !HasBranch(cat, t))
    requires FilterActor(f) == FilterActor(g) && f.startDate == g.startDate && f.endDate == g.endDate
    ensures WantedArms(cat, f, v, db, ts) == WantedArms(cat, g, w, db, ts)
  {
    if ts != [] {
      assert ts[0] in ts;
      SameArm(cat, f, v, g, w, db, ts[0]);
      SameArms(cat, f, v, g, w, db, ts[1..]);
    }
  }

  function Sum(cat: Catalog, f: Filters, v: Viewer, db: Database, ts: seq<string>): nat {
    |Flatten(WantedArms(cat, f, v, db, ts))|
  }

  lemma SumNext(cat: Catalog, f: Filters, v: Viewer, db: Database, t: string, ts: seq<string>)
    ensures Sum(cat, f, v, db, [t] + ts) == |WantedOf(cat, f, v, Scan(db, t))| + Sum(cat, f, v, db, ts)
  {
    assert ([t] + ts)[1..] == ts;
  }

  lemma {:induction false} SumWithout(cat: Catalog, f: Filters, v: Viewer, db: Database, ts: seq<string>, i: nat)
    requires i < |ts|
    ensures Sum(cat, f, v, db, ts) == |WantedOf(cat, f, v, Scan(db, ts[i]))| + Sum(cat, f, v, db, ts[..i] + ts[i + 1..])
  {
    var head, tail := ts[0], ts[1..];
    assert ts == [head] + tail;
    SumNext(cat, f, v, db, head, tail);
    if i == 0 {
      assert ts[..0] + ts[1..] == tail;
    } else {
      SumWithout(cat, f, v, db, tail, i - 1);
      assert ts[..i] + ts[i + 1..] == [head] + (tail[..i - 1] + tail[i..]);
      SumNext(cat, f, v, db, head, tail[..i - 1] + tail[i..]);
    }
  }

  lemma OneLess(ts: seq<string>, us: seq<string>) returns (i: nat)
    requires ts != [] && multiset(ts) == multiset(us)
    ensures i < |us| && us[i] == ts[0] && multiset(ts[1..]) == multiset(us[..i] + us[i + 1..])
  {
    assert ts == [ts[0]] + ts[1..];
    assert ts[0] in multiset(us);
    i :| 0 <= i < |us| && us[i] == ts[0];
    assert us == us[..i] + [us[i]] + us[i + 1..];
    assert multiset(ts[1..]) == multiset(ts) - multiset{ts[0]};
    assert multiset(us[..i] + us[i + 1..]) == multiset(us) - multiset{us[i]};
  }

  /** The order of the tables does not matter. */
  lemma {:induction false} SumPermuted(cat: Catalog, f: Filters, v: Viewer, db: Database,
                                       ts: seq<string>, us: seq<string>)
    requires multiset(ts) == multiset(us)
    ensures Sum(cat, f, v, db, ts) == Sum(cat, f, v, db, us)
  {
    if ts == [] {
      assert |multiset(us)| == 0;
    } else {
      var i := OneLess(ts, us);
      assert ts == [ts[0]] + ts[1..];
      SumNext(cat, f, v, db, ts[0], ts[1..]);
      SumWithout(cat, f, v, db, us, i);
      SumPermuted(cat, f, v, db, ts[1..], us[..i] + us[i + 1..]);
    }
  }

  lemma SameTotal(cat: Catalog, f: Filters, v: Viewer, g: Filters, w: Viewer, db: Database)
    requires Tables(cat, f, v).Some? && Tables(cat, g, w).Some? && WellFormed(db) && SameQuestion(cat, f, v, g, w)
    ensures Total(cat, f, v, db) == Total(cat, g, w, db)
  {
    SameArms(cat, f, v, g, w, db, Tables(cat, f, v).value);
    SumPermuted(cat, g, w, db, Tables(cat, f, v).value, Tables(cat, g, w).value);
  }

  lemma {:induction false} IdleTotal(cat: Catalog, f: Filters, v: Viewer, db: Database, ts: seq<string>)
    requires EmptyWindow(f) || ts == []
    ensures Sum(cat, f, v, db, ts) == 0
  {
    if ts != [] {
      assert ts == [ts[0]] + ts[1..];
      SumNext(cat, f, v, db, ts[0], ts[1..]);
      NoneWanted(cat, f, v, Scan(db, ts[0]));
      IdleTotal(cat, f, v, db, ts[1..]);
    }
  }

  lemma {:induction false} NoneWanted(cat: Catalog, f: Filters, v: Viewer, rows: seq<Row>)
    requires EmptyWindow(f)
    ensures WantedOf(cat, f, v, rows) == []
  {
    if rows != [] {
      WantedIs(cat, f, v, rows[0]);
      NoneWanted(cat, f, v, rows[1..]);
    }
  }

  // ---- Different questions, told apart by one row ----------------------------------------

  function RowAt(t: string, actor: Option<string>, branch: Option<string>, time: int): Row {
    Row(t, "id", actor, branch, time, Some(time))
  }

  predicate Sees(cat: Catalog, f: Filters, v: Viewer, t: string, actor: Option<string>, branch: Option<string>,
                 time: int) {
    (FilterActor(f).Some? ==> actor == FilterActor(f)) && Within(f, time)
    && (HasBranch(cat, t) ==> Lets(Confined(v), branch))
  }

  lemma {:induction false} OneRowTotal(cat: Catalog, f: Filters, v: Viewer, row: Row, ts: seq<string>)
    ensures var db: Database := map[row.table := [row]];
            Sum(cat, f, v, db, ts) == if Wanted(cat, f, v, row) then multiset(ts)[row.table] else 0
  {
    var db: Database := map[row.table := [row]];
    assert [row][1..] == [];
    if ts != [] {
      assert ts == [ts[0]] + ts[1..];
      SumNext(cat, f, v, db, ts[0], ts[1..]);
      OneRowTotal(cat, f, v, row, ts[1..]);
    }
  }

  lemma OneRowDiffers(cat: Catalog, f: Filters, v: Viewer, g: Filters, w: Viewer, row: Row)
    requires Tables(cat, f, v).Some? && Tables(cat, g, w).Some? && Wanted(cat, f, v, row)
    requires var m, n := multiset(Tables(cat, f, v).value)[row.table], multiset(Tables(cat, g, w).value)[row.table];
             m > (if Wanted(cat, g, w, row) then n else 0)
    ensures !TotalsAgree(cat, f, v, g, w) && !TotalsAgree(cat, g, w, f, v)
  {
    OneRowTotal(cat, f, v, row, Tables(cat, f, v).value);
    OneRowTotal(cat, g, w, row, Tables(cat, g, w).value);
    var db: Database := map[row.table := [row]];
    assert WellFormed(db) && Total(cat, f, v, db) > Total(cat, g, w, db);
  }

  lemma SeesRow(cat: Catalog, f: Filters, v: Viewer, t: string, actor: Option<string>, branch: Option<string>,
                time: int)
    ensures Wanted(cat, f, v, RowAt(t, actor, branch, time)) <==> Sees(cat, f, v, t, actor, branch, time)
  {
    WantedIs(cat, f, v, RowAt(t, actor, branch, time));
  }

  /** A branch the viewer may look into, and an instant of the window. */
  lemma SomeBranch(v: Viewer) returns (b: Option<string>)
    ensures Lets(Confined(v), b)
  {
    b := None;
    if ScopedToBranch(v) { b := v.currentBranchId; }
    else if ScopedToGroup(v) {
      b := Some(v.effectiveBranchIds.value[0]);
      assert b.value in v.effectiveBranchIds.value;
    }
  }

  function SomeTime(f: Filters): int {
    if f.startDate.Some? then f.startDate.value else if f.endDate.Some? then f.endDate.value else 0
  }

  /** The first request sees one row of a table that it queries more often, or that the other does
      not see. */
  lemma TellsApart(cat: Catalog, f: Filters, v: Viewer, g: Filters, w: Viewer, t: string,
                   actor: Option<string>, branch: Option<string>, time: int)
    requires Tables(cat, f, v).Some? && Tables(cat, g, w).Some? && Sees(cat, f, v, t, actor, branch, time)
    requires var m, n := multiset(Tables(cat, f, v).value)[t], multiset(Tables(cat, g, w).value)[t];
             m > n || (m > 0 && !Sees(cat, g, w, t, actor, branch, time))
    ensures !TotalsAgree(cat, f, v, g, w) && !TotalsAgree(cat, g, w, f, v)
  {
    SeesRow(cat, f, v, t, actor, branch, time);
    SeesRow(cat, g, w, t, actor, branch, time);
    OneRowDiffers(cat, f, v, g, w, RowAt(t, actor, branch, time));
  }

  lemma MoreOften(cat: Catalog, f: Filters, v: Viewer, g: Filters, w: Viewer, t: string)
    requires Tables(cat, f, v).Some? && Tables(cat, g, w).Some? && !EmptyWindow(f)
    requires multiset(Tables(cat, f, v).value)[t] > if Idle(cat, g, w) then 0 else multiset(Tables(cat, g, w).value)[t]
    ensures !TotalsAgree(cat, f, v, g, w) && !TotalsAgree(cat, g, w, f, v)
  {
    var b := SomeBranch(v);
    TellsApart(cat, f, v, g, w, t, FilterActor(f), b, SomeTime(f));
  }

  lemma OtherActor(cat: Catalog, f: Filters, v: Viewer, g: Filters, w: Viewer, t: string)
    requires Tables(cat, f, v).Some? && Tables(cat, g, w).Some? && !EmptyWindow(f)
    requires t in Tables(cat, f, v).value && FilterActor(g).Some? && FilterActor(f) != FilterActor(g)
    ensures !TotalsAgree(cat, f, v, g, w) && !TotalsAgree(cat, g, w, f, v)
  {
    var b := SomeBranch(v);
    TellsApart(cat, f, v, g, w, t, FilterActor(f), b, SomeTime(f));
  }

  /** An instant of the first window outside the second. */
  lemma OtherTime(cat: Catalog, f: Filters, v: Viewer, g: Filters, w: Viewer, t: string, time: int)
    requires Tables(cat, f, v).Some? && Tables(cat, g, w).Some?
    requires t in Tables(cat, f, v).value && Within(f, time) && !Within(g, time)
    ensures !TotalsAgree(cat, f, v, g, w) && !TotalsAgree(cat, g, w, f, v)
  {
    var b := SomeBranch(v);
    TellsApart(cat, f, v, g, w, t, FilterActor(f), b, time);
  }

  lemma OtherWindow(f: Filters, g: Filters) returns (time: int)
    requires !EmptyWindow(f) && !EmptyWindow(g) && (f.startDate != g.startDate || f.endDate != g.endDate)
    ensures Within(f, time) != Within(g, time)
  {
    time := 0;
    if f.startDate != g.startDate {
      if f.startDate.Some? && (g.startDate.None? || f.startDate.value > g.startDate.value) {
        time := EarlyTime(g, f.startDate.value);
      } else {
        time := EarlyTime(f, g.startDate.value);
      }
    } else if f.endDate.Some? && (g.endDate.None? || f.endDate.value < g.endDate.value) {
      time := LateTime(g, f.endDate.value);
    } else {
      time := LateTime(f, g.endDate.value);
    }
  }

  /** An instant of the window before one that it reaches back from. */
  function EarlyTime(f: Filters, start: int): int {
    if f.startDate.Some? then f.startDate.value
    else if f.endDate.Some? && f.endDate.value < start then f.endDate.value else start - 1
  }

  function LateTime(f: Filters, end: int): int {
    if f.endDate.Some? then f.endDate.value
    else if f.startDate.Some? && f.startDate.value > end then f.startDate.value else end + 1
  }

  /** The first viewer may look where the second may not. */
  predicate Reaches(v: Viewer, w: Viewer) {
    Confined(w).Some? && (Confined(v).None? || !(Confined(v).value <= Confined(w).value))
  }

  lemma OneReaches(v: Viewer, w: Viewer)
    requires Confined(v) != Confined(w)
    ensures Reaches(v, w) || Reaches(w, v)
  {
    if Confined(v).Some? && Confined(w).Some? {
      assert Confined(v).value != Confined(w).value;
    }
  }

  lemma OtherBranches(cat: Catalog, f: Filters, v: Viewer, g: Filters, w: Viewer, t: string)
    requires Tables(cat, f, v).Some? && Tables(cat, g, w).Some? && !EmptyWindow(f)
    requires t in Tables(cat, f, v).value && HasBranch(cat, t)
    requires Reaches(v, w)
    ensures !TotalsAgree(cat, f, v, g, w) && !TotalsAgree(cat, g, w, f, v)
  {
    var b: Option<string> := None;
    if Confined(v).Some? {
      var x :| x in Confined(v).value && x !in Confined(w).value;
      b := Some(x);
    }
    TellsApart(cat, f, v, g, w, t, FilterActor(f), b, SomeTime(f));
  }

  lemma OtherQuestion(cat: Catalog, f: Filters, v: Viewer, g: Filters, w: Viewer)
    requires Tables(cat, f, v).Some? && Tables(cat, g, w).Some?
    requires !Idle(cat, f, v) && !Idle(cat, g, w) && !SameQuestion(cat, f, v, g, w)
    ensures !TotalsAgree(cat, f, v, g, w)
  {
    var ts, us := Tables(cat, f, v).value, Tables(cat, g, w).value;
    if multiset(ts) != multiset(us) {
      var t :| multiset(ts)[t] != multiset(us)[t];
      if multiset(ts)[t] > multiset(us)[t] { MoreOften(cat, f, v, g, w, t); } else { MoreOften(cat, g, w, f, v, t); }
    } else {
      assert ts[0] in multiset(us);
      if FilterActor(f) != FilterActor(g) {
        if FilterActor(g).Some? { OtherActor(cat, f, v, g, w, ts[0]); } else { OtherActor(cat, g, w, f, v, ts[0]); }
      } else if f.startDate != g.startDate || f.endDate != g.endDate {
        var time := OtherWindow(f, g);
        if Within(f, time) { OtherTime(cat, f, v, g, w, ts[0], time); }
        else { OtherTime(cat, g, w, f, v, ts[0], time); }
      } else {
        var t :| t in ts && HasBranch(cat, t);
        assert t in multiset(us);
        OneReaches(v, w);
        if Reaches(v, w) { OtherBranches(cat, f, v, g, w, t); } else { OtherBranches(cat, g, w, f, v, t); }
      }
    }
  }

  lemma IdleDiffers(cat: Catalog, f: Filters, v: Viewer, g: Filters, w: Viewer)
    requires Tables(cat, f, v).Some? && Tables(cat, g, w).Some? && !Idle(cat, f, v) && Idle(cat, g, w)
    ensures !TotalsAgree(cat, f, v, g, w) && !TotalsAgree(cat, g, w, f, v)
  {
    var t := Tables(cat, f, v).value[0];
    var b := SomeBranch(v);
    assert t in multiset(Tables(cat, f, v).value);
    var row := RowAt(t, FilterActor(f), b, SomeTime(f));
    SeesRow(cat, f, v, t, FilterActor(f), b, SomeTime(f));
    OneRowTotal(cat, f, v, row, Tables(cat, f, v).value);
    IdleTotal(cat, g, w, map[t := [row]], Tables(cat, g, w).value);
    assert WellFormed(map[t := [row]]);
  }

  // ---- Main results -----------------------------------------------------------------------

  /** Two requests are owed the same total on every database exactly if neither has anything to
      count or they ask the same question, whatever their page and limit. */
  lemma TotalsAgreeIff(cat: Catalog, f: Filters, v: Viewer, g: Filters, w: Viewer)
    requires Tables(cat, f, v).Some? && Tables(cat, g, w).Some?
    ensures TotalsAgree(cat, f, v, g, w)
       <==> if Idle(cat, f, v) || Idle(cat, g, w) then Idle(cat, f, v) && Idle(cat, g, w)
            else SameQuestion(cat, f, v, g, w)
  {
    if Idle(cat, f, v) && Idle(cat, g, w) {
      forall db: Database | WellFormed(db) ensures Total(cat, f, v, db) == Total(cat, g, w, db) {
        IdleTotal(cat, f, v, db, Tables(cat, f, v).value);
        IdleTotal(cat, g, w, db, Tables(cat, g, w).value);
      }
    } else if Idle(cat, f, v) {
      IdleDiffers(cat, g, w, f, v);
    } else if Idle(cat, g, w) {
      IdleDiffers(cat, f, v, g, w);
    } else if SameQuestion(cat, f, v, g, w) {
      forall db: Database | WellFormed(db) ensures Total(cat, f, v, db) == Total(cat, g, w, db) {
        SameTotal(cat, f, v, g, w, db);
      }
    } else {
      OtherQuestion(cat, f, v, g, w);
    }
  }

  /** Two requests, each with its own filters and viewer, that share a cache key are owed the same
      total on every database exactly when their viewers are confined to the same company branches,
      or nothing they look at has branches or is counted at all: those ids are not in the key. */
  lemma CountKeyIff(cat: Catalog, f: Filters, v: Viewer, g: Filters, w: Viewer)
    requires Tables(cat, f, v).Some? && Tables(cat, g, w).Some? && KeyOf(cat, f, v) == KeyOf(cat, g, w)
    ensures TotalsAgree(cat, f, v, g, w)
       <==> || Company(v) == Company(w) || EmptyWindow(f)
            || forall t :: t in Tables(cat, f, v).value ==> !HasBranch(cat, t)
  {
    TotalsAgreeIff(cat, f, v, g, w);
    assert ScopedToBranch(v) <==> ScopedToBranch(w);
  }
}
