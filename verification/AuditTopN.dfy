/** `ORDER BY valid_to DESC NULLS FIRST LIMIT n` as a relation, so that the database may break
    ties as it likes, and the rewriting of a sorted union into sorted top-n arms. */
module AuditTopN {

  import opened Common

  /** A history row (`from` and `to` are valid_from and valid_to) or a mirror session
      (started_at and ended_at). */
  datatype Row = Row(
    table: string, id: string, actor: Option<string>, branch: Option<string>, from: int, to: Option<int>)

  const MIRROR := "mirror_sessions"

  /** The sort key inside an arm, and the one of the outer query, which differ for mirror
      sessions; or a ranking of the rows, which leaves no choice among rows it tells apart. */
  datatype Level = Inner | Outer | Ranked(rank: Row -> int)

  function Key(r: Row, level: Level): Option<int> {
    match level
    case Inner => if r.table == MIRROR && r.to.None? then Some(r.from) else r.to
    case Outer => r.to
    case Ranked(rank) => Some(rank(r))
  }

  /** `a` may stand before `b` in descending order, nulls first. */
  predicate MayPrecede(a: Option<int>, b: Option<int>) {
    a.None? || (b.Some? && a.value >= b.value)
  }

  predicate Sorted(s: seq<Row>, level: Level) {
    forall i, j :: 0 <= i < j < |s| ==> MayPrecede(Key(s[i], level), Key(s[j], level))
  }

  function Min(a: nat, b: nat): nat {
    if a <= b then a else b
  }

  /** `out` is an answer the database may give for the first `n` of `rows`. */
  ghost predicate IsTop(rows: seq<Row>, level: Level, n: nat, out: seq<Row>) {
    && |out| == Min(n, |rows|)
    && multiset(out) <= multiset(rows)
    && Sorted(out, level)
    && (forall r, o :: r in multiset(rows) - multiset(out) && o in out ==> MayPrecede(Key(o, level), Key(r, level)))
  }

  /** An answer for `LIMIT limit OFFSET offset`. */
  ghost predicate IsPage(rows: seq<Row>, level: Level, limit: nat, offset: nat, page: seq<Row>) {
    exists out :: IsTop(rows, level, limit + offset, out) && page == out[Min(offset, |out|)..]
  }

  function Flatten(arms: seq<seq<Row>>): seq<Row> {
    if arms == [] then [] else arms[0] + Flatten(arms[1..])
  }

  // ---- Multisets ------------------------------------------------------------------------

  lemma SubsetOfSameSize(a: seq<Row>, b: seq<Row>)
    requires multiset(a) <= multiset(b) && |a| >= |b|
    ensures multiset(a) == multiset(b)
  {
    assert multiset(b) == multiset(a) + (multiset(b) - multiset(a));
    assert |multiset(b)| == |b| && |multiset(a)| == |a|;
  }

  lemma SubsetSize(a: seq<Row>, b: seq<Row>)
    requires forall r :: r in a ==> multiset(a)[r] <= multiset(b)[r]
    ensures multiset(a) <= multiset(b) && |a| <= |b|
  {
    assert multiset(b) == multiset(a) + (multiset(b) - multiset(a));
    assert |multiset(b)| == |b| && |multiset(a)| == |a|;
  }

  ghost predicate TopArms(arms: seq<seq<Row>>, n: nat, tops: seq<seq<Row>>, level: Level) {
    |arms| == |tops| && forall i :: 0 <= i < |arms| ==> IsTop(arms[i], level, n, tops[i])
  }

  lemma {:induction false} ArmWithin(arms: seq<seq<Row>>, i: nat)
    requires i < |arms|
    ensures multiset(arms[i]) <= multiset(Flatten(arms)) && |arms[i]| <= |Flatten(arms)|
  {
    if i > 0 { ArmWithin(arms[1..], i - 1); }
  }

  lemma {:induction false} TopsWithinArms(arms: seq<seq<Row>>, n: nat, tops: seq<seq<Row>>, level: Level)
    requires TopArms(arms, n, tops, level)
    ensures multiset(Flatten(tops)) <= multiset(Flatten(arms))
  {
    if arms != [] { TopsWithinArms(arms[1..], n, tops[1..], level); }
  }

  /** Fewer copies of a row among the tops than among the arms: some arm dropped one. */
  lemma {:induction false} DroppedByAnArm(arms: seq<seq<Row>>, n: nat, tops: seq<seq<Row>>, level: Level, r: Row)
    returns (i: nat)
    requires TopArms(arms, n, tops, level)
    requires multiset(Flatten(arms))[r] > multiset(Flatten(tops))[r]
    ensures i < |arms| && r in multiset(arms[i]) - multiset(tops[i])
  {
    if multiset(arms[0])[r] > multiset(tops[0])[r] {
      i := 0;
    } else {
      i := DroppedByAnArm(arms[1..], n, tops[1..], level, r);
      i := i + 1;
    }
  }

  /** The arms lose rows only if one of them kept `n`. */
  lemma {:induction false} TopsSize(arms: seq<seq<Row>>, n: nat, tops: seq<seq<Row>>, level: Level)
    requires TopArms(arms, n, tops, level)
    ensures Min(n, |Flatten(tops)|) == Min(n, |Flatten(arms)|)
  {
    if arms != [] { TopsSize(arms[1..], n, tops[1..], level); }
  }

  // ---- The rewriting --------------------------------------------------------------------

  lemma RowStaysBehind(
      arms: seq<seq<Row>>, n: nat, tops: seq<seq<Row>>, out: seq<Row>, level: Level, i: nat, r: Row, o: Row)
    requires TopArms(arms, n, tops, level) && IsTop(Flatten(tops), level, n, out)
    requires i < |arms| && r in multiset(arms[i]) - multiset(tops[i]) && o in out
    ensures MayPrecede(Key(o, level), Key(r, level))
  {
    if !MayPrecede(Key(o, level), Key(r, level)) {
      assert IsTop(arms[i], level, n, tops[i]);
      ArmWithin(tops, i);
      forall t | t in tops[i] ensures multiset(tops[i])[t] <= multiset(out)[t] {
        assert MayPrecede(Key(t, level), Key(r, level)) && !MayPrecede(Key(o, level), Key(t, level));
        assert t !in multiset(Flatten(tops)) - multiset(out);
      }
      assert |tops[i]| == n by {
        if |tops[i]| == |arms[i]| { SubsetOfSameSize(tops[i], arms[i]); }
      }
      SubsetOfSameSize(tops[i], out);
    }
  }

  /** Sorting the union of the arms' top-n rows answers the query over the whole union,
      however ties are broken in each arm and in the outer sort. */
  lemma Pushdown(arms: seq<seq<Row>>, n: nat, tops: seq<seq<Row>>, out: seq<Row>, level: Level)
    requires TopArms(arms, n, tops, level) && IsTop(Flatten(tops), level, n, out)
    ensures IsTop(Flatten(arms), level, n, out)
  {
    TopsWithinArms(arms, n, tops, level);
    TopsSize(arms, n, tops, level);
    forall r, o | r in multiset(Flatten(arms)) - multiset(out) && o in out
      ensures MayPrecede(Key(o, level), Key(r, level))
    {
      if multiset(Flatten(arms))[r] > multiset(Flatten(tops))[r] {
        var i := DroppedByAnArm(arms, n, tops, level, r);
        RowStaysBehind(arms, n, tops, out, level, i, r, o);
      } else {
        assert r in multiset(Flatten(tops)) - multiset(out);
      }
    }
  }

  // ---- What ties leave open -------------------------------------------------------------

  /** A row that must stand before position `i` of `b` is among the rows before it, or left out of `b`. */
  lemma BeforePosition(rows: seq<Row>, level: Level, n: nat, b: seq<Row>, i: nat, r: Row)
    requires IsTop(rows, level, n, b) && i < |b|
    requires r in rows && !MayPrecede(Key(b[i], level), Key(r, level))
    ensures multiset(rows)[r] <= multiset(b[..i])[r]
  {
    assert b == b[..i] + b[i..];
    assert r !in b[i..];
    assert b[i] in b;
    assert r !in multiset(rows) - multiset(b);
  }

  lemma PrefixWithin(a: seq<Row>, i: nat, r: Row)
    requires i <= |a|
    ensures multiset(a[..i])[r] <= multiset(a)[r]
  {
    assert a == a[..i] + a[i..];
  }

  lemma FirstRowsWithin(rows: seq<Row>, level: Level, n: nat, a: seq<Row>, b: seq<Row>, i: nat, k: nat)
    requires IsTop(rows, level, n, a) && IsTop(rows, level, n, b) && k <= i < |a|
    requires !MayPrecede(Key(b[i], level), Key(a[i], level))
    ensures multiset(a[..i + 1])[a[k]] <= multiset(b[..i])[a[k]]
  {
    assert k < i ==> MayPrecede(Key(a[k], level), Key(a[i], level));
    PrefixWithin(a, i + 1, a[k]);
    assert a[k] in multiset(a);
    BeforePosition(rows, level, n, b, i, a[k]);
  }

  lemma KeyNotEarlier(rows: seq<Row>, level: Level, n: nat, a: seq<Row>, b: seq<Row>, i: nat)
    requires IsTop(rows, level, n, a) && IsTop(rows, level, n, b) && i < |a|
    ensures MayPrecede(Key(b[i], level), Key(a[i], level))
  {
    if !MayPrecede(Key(b[i], level), Key(a[i], level)) {
      var first, before := a[..i + 1], b[..i];
      forall r | r in first ensures multiset(first)[r] <= multiset(before)[r] {
        var k :| 0 <= k < |first| && first[k] == r;
        FirstRowsWithin(rows, level, n, a, b, i, k);
      }
      SubsetSize(first, before);
    }
  }

  /** The sequence of sort keys of a page never depends on how ties are broken. */
  lemma KeysDetermined(rows: seq<Row>, level: Level, n: nat, a: seq<Row>, b: seq<Row>, i: nat)
    requires IsTop(rows, level, n, a) && IsTop(rows, level, n, b) && i < |a|
    ensures Key(a[i], level) == Key(b[i], level)
  {
    KeyNotEarlier(rows, level, n, a, b, i);
    KeyNotEarlier(rows, level, n, b, a, i);
  }

  /** Rows that tie are indistinguishable. */
  ghost predicate NoTies(rows: seq<Row>, level: Level) {
    forall r, s :: r in rows && s in rows && Key(r, level) == Key(s, level) ==> r == s
  }

  /** Every query for a prefix has one answer. */
  ghost predicate Repeatable(rows: seq<Row>, level: Level) {
    forall n: nat, a, b :: IsTop(rows, level, n, a) && IsTop(rows, level, n, b) ==> a == b
  }

  function InsertByKey(r: Row, s: seq<Row>, level: Level): seq<Row> {
    if s == [] || MayPrecede(Key(r, level), Key(s[0], level)) then [r] + s
    else [s[0]] + InsertByKey(r, s[1..], level)
  }

  function Sort(s: seq<Row>, level: Level): seq<Row> {
    if s == [] then [] else InsertByKey(s[0], Sort(s[1..], level), level)
  }

  lemma {:induction false} InsertKeeps(r: Row, s: seq<Row>, level: Level)
    ensures multiset(InsertByKey(r, s, level)) == multiset(s) + multiset{r}
  {
    if s != [] && !MayPrecede(Key(r, level), Key(s[0], level)) {
      InsertKeeps(r, s[1..], level);
      assert s == [s[0]] + s[1..];
    }
  }

  lemma SortedCons(r: Row, s: seq<Row>, level: Level)
    requires Sorted(s, level) && (forall x :: x in s ==> MayPrecede(Key(r, level), Key(x, level)))
    ensures Sorted([r] + s, level)
  {
    var t := [r] + s;
    forall i, j | 0 <= i < j < |t| ensures MayPrecede(Key(t[i], level), Key(t[j], level)) {
      assert t[j] == s[j - 1];
    }
  }

  lemma {:induction false} InsertSorts(r: Row, s: seq<Row>, level: Level)
    requires Sorted(s, level)
    ensures Sorted(InsertByKey(r, s, level), level)
  {
    if s == [] || MayPrecede(Key(r, level), Key(s[0], level)) {
      forall x | x in s ensures MayPrecede(Key(r, level), Key(x, level)) {
        var j :| 0 <= j < |s| && s[j] == x;
        assert j == 0 || MayPrecede(Key(s[0], level), Key(s[j], level));
      }
      SortedCons(r, s, level);
    } else {
      InsertSorts(r, s[1..], level);
      var t := InsertByKey(r, s[1..], level);
      InsertKeeps(r, s[1..], level);
      forall x | x in t ensures MayPrecede(Key(s[0], level), Key(x, level)) {
        assert x in multiset(t);
        if x != r {
          assert x in s[1..];
          var j :| 0 <= j < |s[1..]| && s[1..][j] == x;
          assert MayPrecede(Key(s[0], level), Key(s[j + 1], level));
        }
      }
      SortedCons(s[0], t, level);
    }
  }

  lemma PermutationIsTop(rows: seq<Row>, out: seq<Row>, level: Level)
    requires multiset(out) == multiset(rows) && Sorted(out, level)
    ensures |out| == |rows| && IsTop(rows, level, |rows|, out)
  {
    assert |multiset(out)| == |out| && |multiset(rows)| == |rows|;
    assert multiset(rows) - multiset(out) == multiset{};
  }

  lemma {:induction false} SortKeeps(s: seq<Row>, level: Level)
    ensures Sorted(Sort(s, level), level) && multiset(Sort(s, level)) == multiset(s)
  {
    if s != [] {
      SortKeeps(s[1..], level);
      InsertSorts(s[0], Sort(s[1..], level), level);
      InsertKeeps(s[0], Sort(s[1..], level), level);
      assert s == [s[0]] + s[1..];
    }
  }

  lemma SortIsTop(s: seq<Row>, level: Level)
    ensures Sorted(Sort(s, level), level) && multiset(Sort(s, level)) == multiset(s) && |Sort(s, level)| == |s|
    ensures IsTop(s, level, |s|, Sort(s, level))
  {
    SortKeeps(s, level);
    PermutationIsTop(s, Sort(s, level), level);
  }

  lemma {:induction false} AnswersAgree(rows: seq<Row>, level: Level, n: nat, a: seq<Row>, b: seq<Row>)
    requires NoTies(rows, level) && IsTop(rows, level, n, a) && IsTop(rows, level, n, b)
    ensures a == b
  {
    forall i | 0 <= i < |a| ensures a[i] == b[i] {
      KeysDetermined(rows, level, n, a, b, i);
      assert a[i] in multiset(a) && b[i] in multiset(b);
      assert a[i] in rows && b[i] in rows;
    }
  }

  lemma SwapIsSorted(s: seq<Row>, level: Level, i: nat, j: nat)
    requires i < |s| && j < |s| && i != j && Sorted(s, level) && Key(s[i], level) == Key(s[j], level)
    ensures Sorted(s[i := s[j]][j := s[i]], level)
    ensures multiset(s[i := s[j]][j := s[i]]) == multiset(s)
  {
    var t := s[i := s[j]][j := s[i]];
    forall k, m | 0 <= k < m < |t| ensures MayPrecede(Key(t[k], level), Key(t[m], level)) {
      assert Key(t[k], level) == Key(s[k], level) && Key(t[m], level) == Key(s[m], level);
    }
  }

  lemma SwappedAnswer(rows: seq<Row>, level: Level, all: seq<Row>, i: nat, j: nat)
    requires multiset(all) == multiset(rows) && Sorted(all, level)
    requires i < |all| && j < |all| && Key(all[i], level) == Key(all[j], level) && all[i] != all[j]
    ensures !Repeatable(rows, level)
  {
    var swapped := all[i := all[j]][j := all[i]];
    SwapIsSorted(all, level, i, j);
    PermutationIsTop(rows, all, level);
    PermutationIsTop(rows, swapped, level);
    assert swapped[i] != all[i];
  }

  lemma Position(rows: seq<Row>, all: seq<Row>, r: Row) returns (i: nat)
    requires multiset(all) == multiset(rows) && r in rows
    ensures i < |all| && all[i] == r
  {
    assert r in multiset(all);
    i :| 0 <= i < |all| && all[i] == r;
  }

  lemma TiesAreOpen(rows: seq<Row>, level: Level, r: Row, s: Row)
    requires r in rows && s in rows && Key(r, level) == Key(s, level) && r != s
    ensures !Repeatable(rows, level)
  {
    SortKeeps(rows, level);
    var i := Position(rows, Sort(rows, level), r);
    var j := Position(rows, Sort(rows, level), s);
    SwappedAnswer(rows, level, Sort(rows, level), i, j);
  }

  /** Answers are repeatable exactly when no two different rows share a sort key. By the outer
      key that is `valid_to` alone: the query has no tie-break column. */
  lemma RepeatableIff(rows: seq<Row>, level: Level)
    ensures Repeatable(rows, level) <==> NoTies(rows, level)
  {
    if NoTies(rows, level) {
      forall n: nat, a, b | IsTop(rows, level, n, a) && IsTop(rows, level, n, b) ensures a == b {
        AnswersAgree(rows, level, n, a, b);
      }
    } else {
      var r, s :| r in rows && s in rows && Key(r, level) == Key(s, level) && r != s;
      TiesAreOpen(rows, level, r, s);
    }
  }

  lemma PrefixPrecedes(rows: seq<Row>, level: Level, n: nat, head: seq<Row>, tail: seq<Row>, r: Row, o: Row)
    requires IsTop(rows, level, n, head + tail)
    requires r in multiset(rows) - multiset(head) && o in head
    ensures MayPrecede(Key(o, level), Key(r, level))
  {
    var out := head + tail;
    var i :| 0 <= i < |head| && head[i] == o;
    assert out[i] == o;
    if r in tail {
      var j :| 0 <= j < |tail| && tail[j] == r;
      assert MayPrecede(Key(out[i], level), Key(out[|head| + j], level));
    } else {
      assert r in multiset(rows) - multiset(out) && o in out;
    }
  }

  lemma PrefixIsTop(rows: seq<Row>, level: Level, n: nat, out: seq<Row>, m: nat)
    requires IsTop(rows, level, n, out) && m <= n
    ensures IsTop(rows, level, m, out[..Min(m, |out|)])
  {
    var head, tail := out[..Min(m, |out|)], out[Min(m, |out|)..];
    assert out == head + tail;
    forall r, o | r in multiset(rows) - multiset(head) && o in head ensures MayPrecede(Key(o, level), Key(r, level)) {
      PrefixPrecedes(rows, level, n, head, tail, r, o);
    }
  }

  lemma TopIsPrefix(rows: seq<Row>, level: Level, n: nat, out: seq<Row>)
    requires NoTies(rows, level) && IsTop(rows, level, n, out)
    ensures |Sort(rows, level)| == |rows| && out == Sort(rows, level)[..Min(n, |rows|)]
  {
    SortIsTop(rows, level);
    var all := Sort(rows, level);
    if n <= |rows| {
      PrefixIsTop(rows, level, |rows|, all, n);
      AnswersAgree(rows, level, n, out, all[..Min(n, |all|)]);
    } else {
      assert IsTop(rows, level, n, all);
      AnswersAgree(rows, level, n, out, all);
    }
  }

  /** Under a key that tells the rows apart, page k is exactly the k-th slice of the full sorted list: consecutive
      pages tile it with no gap and no repeat. */
  lemma PagesTile(rows: seq<Row>, level: Level, limit: nat, offset: nat, page: seq<Row>)
    requires NoTies(rows, level) && IsPage(rows, level, limit, offset, page)
    ensures multiset(Sort(rows, level)) == multiset(rows) && Sorted(Sort(rows, level), level)
    ensures |Sort(rows, level)| == |rows|
    ensures page == Sort(rows, level)[Min(offset, |rows|)..Min(offset + limit, |rows|)]
  {
    var out :| IsTop(rows, level, limit + offset, out) && page == out[Min(offset, |out|)..];
    SortIsTop(rows, level);
    TopIsPrefix(rows, level, limit + offset, out);
  }

  // ---- With ties broken in a fixed way ----------------------------------------------------

  /** A ranking that tells all rows apart and agrees with `valid_to DESC NULLS FIRST`. */
  ghost predicate TieBreak(rank: Row -> int, rows: seq<Row>) {
    forall r, s :: r in rows && s in rows ==>
      (rank(r) == rank(s) ==> r == s) && (rank(r) >= rank(s) ==> MayPrecede(Key(r, Outer), Key(s, Outer)))
  }

  lemma TieBreakTellsApart(rank: Row -> int, rows: seq<Row>)
    requires TieBreak(rank, rows)
    ensures NoTies(rows, Ranked(rank))
  {
  }

  lemma TieBreakWithin(rank: Row -> int, rows: seq<Row>, some: seq<Row>)
    requires TieBreak(rank, rows) && multiset(some) <= multiset(rows)
    ensures TieBreak(rank, some)
  {
    forall r | r in some ensures r in rows {
      assert r in multiset(some);
      assert r in multiset(rows);
    }
  }

  /** An answer that breaks ties by the ranking is an answer of the query as it stands. */
  lemma RankedIsTop(rank: Row -> int, rows: seq<Row>, n: nat, out: seq<Row>)
    requires TieBreak(rank, rows) && IsTop(rows, Ranked(rank), n, out)
    ensures IsTop(rows, Outer, n, out)
  {
    forall o | o in out ensures o in rows {
      assert o in multiset(out);
    }
    forall r | r in multiset(rows) - multiset(out) ensures r in rows {
      assert r in multiset(rows);
    }
    forall i, j | 0 <= i < j < |out| ensures MayPrecede(Key(out[i], Outer), Key(out[j], Outer)) {
      assert MayPrecede(Key(out[i], Ranked(rank)), Key(out[j], Ranked(rank)));
      assert out[i] in rows && out[j] in rows;
    }
  }

  /** With any fixed tie-break the rewritten query gives the very rows that sorting the whole
      union gives, ties or not. */
  lemma SameRows(rank: Row -> int, arms: seq<seq<Row>>, n: nat, tops: seq<seq<Row>>, out: seq<Row>)
    requires TieBreak(rank, Flatten(arms))
    requires TopArms(arms, n, tops, Ranked(rank)) && IsTop(Flatten(tops), Ranked(rank), n, out)
    ensures |Sort(Flatten(arms), Ranked(rank))| == |Flatten(arms)|
    ensures out == Sort(Flatten(arms), Ranked(rank))[..Min(n, |Flatten(arms)|)]
  {
    Pushdown(arms, n, tops, out, Ranked(rank));
    TieBreakTellsApart(rank, Flatten(arms));
    TopIsPrefix(Flatten(arms), Ranked(rank), n, out);
  }

  function PageStart(k: nat, limit: nat): nat {
    if k == 0 then 0 else PageStart(k - 1, limit) + limit
  }

  lemma {:induction false} PageStartIs(k: nat, limit: nat)
    ensures PageStart(k, limit) == k * limit
  {
    if k > 0 { PageStartIs(k - 1, limit); }
  }

  lemma NextPage(all: seq<Row>, front: seq<seq<Row>>, last: seq<Row>, offset: nat, limit: nat)
    requires Flatten(front) == all[..Min(offset, |all|)]
    requires last == all[Min(offset, |all|)..Min(offset + limit, |all|)]
    ensures Flatten(front + [last]) == all[..Min(offset + limit, |all|)]
  {
    FlattenLast(front, last);
  }

  /** Pages 1, 2, ... of one limit. */
  ghost predicate Pages(rows: seq<Row>, level: Level, limit: nat, pages: seq<seq<Row>>) {
    forall k :: 0 <= k < |pages| ==> IsPage(rows, level, limit, PageStart(k, limit), pages[k])
  }

  function Slice(all: seq<Row>, offset: nat, limit: nat): seq<Row> {
    all[Min(offset, |all|)..Min(offset + limit, |all|)]
  }

  lemma {:induction false} SlicesConcat(all: seq<Row>, limit: nat, pages: seq<seq<Row>>)
    requires forall k :: 0 <= k < |pages| ==> pages[k] == Slice(all, PageStart(k, limit), limit)
    ensures Flatten(pages) == all[..Min(PageStart(|pages|, limit), |all|)]
    decreases |pages|
  {
    if pages != [] {
      var k := |pages| - 1;
      SlicesConcat(all, limit, pages[..k]);
      NextPage(all, pages[..k], pages[k], PageStart(k, limit), limit);
      assert pages == pages[..k] + [pages[k]];
    }
  }

  lemma PageIsSlice(rows: seq<Row>, level: Level, limit: nat, pages: seq<seq<Row>>, k: nat)
    requires NoTies(rows, level) && Pages(rows, level, limit, pages) && k < |pages|
    ensures |Sort(rows, level)| == |rows| && pages[k] == Slice(Sort(rows, level), PageStart(k, limit), limit)
  {
    var start, page := PageStart(k, limit), pages[k];
    assert IsPage(rows, level, limit, start, page);
    PagesTile(rows, level, limit, start, page);
  }

  lemma SortIsPermutation(rows: seq<Row>, level: Level)
    ensures multiset(Sort(rows, level)) == multiset(rows) && |Sort(rows, level)| == |rows|
  {
    SortIsTop(rows, level);
  }

  /** The pages of one limit, one after the other from the first, are the sorted list up to
      where they reach. */
  lemma PagesConcat(rows: seq<Row>, level: Level, limit: nat, pages: seq<seq<Row>>)
    requires NoTies(rows, level) && Pages(rows, level, limit, pages)
    ensures |Sort(rows, level)| == |rows| && multiset(Sort(rows, level)) == multiset(rows)
    ensures Flatten(pages) == Sort(rows, level)[..Min(PageStart(|pages|, limit), |rows|)]
  {
    SortIsPermutation(rows, level);
    var all := Sort(rows, level);
    forall k | 0 <= k < |pages| ensures pages[k] == Slice(all, PageStart(k, limit), limit) {
      PageIsSlice(rows, level, limit, pages, k);
    }
    SlicesConcat(all, limit, pages);
  }

  lemma {:induction false} FlattenLast(front: seq<seq<Row>>, last: seq<Row>)
    ensures Flatten(front + [last]) == Flatten(front) + last
  {
    if front == [] {
      assert front + [last] == [last] && Flatten([last]) == last + Flatten([last][1..]);
    } else {
      assert (front + [last])[1..] == front[1..] + [last];
      FlattenLast(front[1..], last);
    }
  }
}
