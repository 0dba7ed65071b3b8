/** What any list of product merges does to the references, whatever its order. */
module ProductLaws {
  import opened Common
  import opened ProductInventory
  import opened ProductMerge

  // ---- The product map --------------------------------------------------------------------

  lemma {:induction false} RepConcat(a: seq<Merge>, b: seq<Merge>, x: Id)
    ensures Rep(a + b, x) == Rep(b, Rep(a, x))
  {
    if a == [] {
      assert a + b == b;
    } else {
      assert (a + b)[1..] == a[1..] + b;
      RepConcat(a[1..], b, Sub(a[0], x));
    }
  }

  lemma RepOfOne(m: Merge, x: Id)
    ensures Rep([m], x) == Sub(m, x)
  {
    assert [m][1..] == [];
  }

  /** A group's merges depend on its members only, not on the order in which they are merged. */
  lemma {:induction false} RepOfGroup(keep: Id, ids: seq<Id>, x: Id)
    ensures Rep(GroupMerges(keep, ids), x) == if x in ids then keep else x
    ensures Proper(GroupMerges(keep, ids))
  {
    if ids != [] {
      var front, last := ids[..|ids| - 1], ids[|ids| - 1];
      var ms := GroupMerges(keep, front);
      RepOfGroup(keep, front, x);
      assert x in ids <==> x in front || x == last by { assert ids == front + [last]; }
      if last == keep {
        assert ms + [] == ms;
      } else {
        RepConcat(ms, [Merge(keep, last)], x);
        RepOfOne(Merge(keep, last), Rep(ms, x));
      }
    }
  }

  predicate Apart(groups: seq<Group>) {
    && (forall i :: 0 <= i < |groups| ==> groups[i].keep in groups[i].all)
    && (forall i, j, x :: 0 <= i < j < |groups| && x in groups[i].all ==> x !in groups[j].all)
  }

  lemma PlanStep(groups: seq<Group>, x: Id)
    requires groups != [] && Proper(Plan(groups[..|groups| - 1]))
    ensures var last, y := groups[|groups| - 1], Rep(Plan(groups[..|groups| - 1]), x);
            Rep(Plan(groups), x) == if y in last.all then last.keep else y
    ensures Proper(Plan(groups))
  {
    var prior, last := groups[..|groups| - 1], groups[|groups| - 1];
    RepConcat(Plan(prior), GroupMerges(last.keep, last.all), x);
    RepOfGroup(last.keep, last.all, Rep(Plan(prior), x));
  }

  /** Where a product belongs: its group's kept one, or itself. */
  predicate Belongs(groups: seq<Group>, x: Id, y: Id) {
    && (forall i :: 0 <= i < |groups| && x in groups[i].all ==> y == groups[i].keep)
    && ((forall i :: 0 <= i < |groups| ==> x !in groups[i].all) ==> y == x)
  }

  lemma BelongsNext(groups: seq<Group>, x: Id, y: Id)
    requires groups != [] && Apart(groups) && Belongs(groups[..|groups| - 1], x, y)
    ensures Belongs(groups, x, if y in groups[|groups| - 1].all then groups[|groups| - 1].keep else y)
  {
    var n := |groups| - 1;
    var prior := groups[..n];
    forall i | 0 <= i < n ensures prior[i] == groups[i] {}
    if i :| 0 <= i < n && x in groups[i].all {
      assert x in prior[i].all && y == groups[i].keep && y in groups[i].all;
      assert y !in groups[n].all && x !in groups[n].all;
    } else {
      assert forall i :: 0 <= i < |prior| ==> x !in prior[i].all;
    }
  }

  /** With disjoint groups the planned merges send each member to its own group's kept product
      and leave every other product alone. */
  lemma {:induction false} RepOfPlan(groups: seq<Group>, x: Id)
    requires Apart(groups)
    ensures Proper(Plan(groups))
    ensures Belongs(groups, x, Rep(Plan(groups), x))
  {
    if groups != [] {
      RepOfPlan(groups[..|groups| - 1], x);
      PlanStep(groups, x);
      BelongsNext(groups, x, Rep(Plan(groups[..|groups| - 1]), x));
    }
  }

  // ---- One merge --------------------------------------------------------------------------

  ghost predicate Assigned(rows: seq<Assignment>, user: Id, g: iset<Id>) {
    exists r :: r in rows && r.user == user && r.product in g
  }

  lemma {:induction false} UndoubledIn(rows: seq<Assignment>, all: seq<Assignment>, m: Merge, r: Assignment)
    ensures r in Undoubled(rows, all, m)
       <==> r in rows && !(r.product == m.drop && Assignment(r.user, m.keep) in all)
    ensures NoRepeats(rows) ==> NoRepeats(Undoubled(rows, all, m))
  {
    if rows != [] {
      var rest := Undoubled(rows[1..], all, m);
      UndoubledIn(rows[1..], all, m, r);
      UndoubledIn(rows[1..], all, m, rows[0]);
      assert rows == [rows[0]] + rows[1..];
      assert NoRepeats(rows) ==> NoRepeats(rows[1..]) && rows[0] !in rows[1..];
    }
  }

  lemma MovedIn(rows: seq<Assignment>, m: Merge, r: Assignment)
    ensures r in Moved(rows, m)
       <==> exists s :: s in rows && s.(product := Sub(m, s.product)) == r
  {
    forall s | s in rows && s.(product := Sub(m, s.product)) == r ensures r in Moved(rows, m) {
      var i :| 0 <= i < |rows| && rows[i] == s;
      assert Moved(rows, m)[i] == r;
    }
    if r in Moved(rows, m) {
      var i :| 0 <= i < |rows| && Moved(rows, m)[i] == r;
      assert rows[i] in rows;
    }
  }

  /** A user is assigned to a set of products afterwards exactly if they were to one that the
      merge sends into it; nobody is assigned twice who was not before. */
  lemma AssignedQuotient(rows: seq<Assignment>, m: Merge, user: Id, g: iset<Id>)
    requires m.keep != m.drop
    ensures Assigned(MergedAssignments(rows, m), user, g) <==> Assigned(rows, user, Via(g, m))
    ensures NoRepeats(rows) ==> NoRepeats(MergedAssignments(rows, m))
  {
    var rest := Undoubled(rows, rows, m);
    if Assigned(rows, user, Via(g, m)) {
      var r :| r in rows && r.user == user && r.product in Via(g, m);
      UndoubledIn(rows, rows, m, r);
      var s := if r in rest then r else Assignment(user, m.keep);
      UndoubledIn(rows, rows, m, s);
      MovedIn(rest, m, s.(product := Sub(m, s.product)));
      assert s.(product := Sub(m, s.product)) in MergedAssignments(rows, m);
    }
    if Assigned(MergedAssignments(rows, m), user, g) {
      var r :| r in Moved(rest, m) && r.user == user && r.product in g;
      MovedIn(rest, m, r);
      var s :| s in rest && s.(product := Sub(m, s.product)) == r;
      UndoubledIn(rows, rows, m, s);
      assert s in rows && s.product in Via(g, m);
    }
    if NoRepeats(rows) {
      forall i, j | 0 <= i < j < |rest| ensures Moved(rest, m)[i] != Moved(rest, m)[j] {
        UndoubledIn(rows, rows, m, rest[i]);
        UndoubledIn(rows, rows, m, rest[j]);
      }
    }
  }

  ghost predicate Offered(ts: map<Id, Template>, name: string, g: iset<Id>) {
    exists i :: i in ts && ts[i].live && ts[i].name == name && ts[i].product in g
  }

  lemma DoublesAreNamed(ts: map<Id, Template>, m: Merge, i: Id)
    requires m.keep != m.drop && i in Doubles(ts, m)
    ensures var k := Least(Named(ts, m.keep, ts[i].name));
            k in ts && ts[k] == Template(m.keep, ts[i].name, true) && k !in Doubles(ts, m)
  {
  }

  /** The same for the names under which live templates are offered. */
  lemma OfferedQuotient(ts: map<Id, Template>, m: Merge, name: string, g: iset<Id>)
    requires m.keep != m.drop
    ensures Offered(MergedTemplates(ts, m), name, g) <==> Offered(ts, name, Via(g, m))
  {
    var after := MergedTemplates(ts, m);
    if Offered(ts, name, Via(g, m)) {
      var i :| i in ts && ts[i].live && ts[i].name == name && ts[i].product in Via(g, m);
      if i in Doubles(ts, m) { DoublesAreNamed(ts, m, i); }
      var k := if i in Doubles(ts, m) then Least(Named(ts, m.keep, name)) else i;
      assert k in after && after[k].live && after[k].name == name && after[k].product in g;
    }
    if Offered(after, name, g) {
      var i :| i in after && after[i].live && after[i].name == name && after[i].product in g;
      assert ts[i].product in Via(g, m);
    }
  }

  /** Where a campaign's template was live, the campaign ends up on a live template of the same
      name whose product is the merged one; any other template it points at is untouched. */
  predicate Follows(t: Tables, after: Tables, ms: seq<Merge>, i: nat) {
    && i < |t.campaigns| == |after.campaigns|
    && var c, d := t.campaigns[i], after.campaigns[i];
       && c.live == d.live
       && (c.template.Some? && c.template.value in t.templates ==>
             && d.template.Some? && d.template.value in after.templates
             && var x, y := t.templates[c.template.value], after.templates[d.template.value];
                y == if x.live then x.(product := Rep(ms, x.product)) else x)
  }

  lemma MergedOneIs(t: Tables, m: Merge)
    requires MergedOne(t, m).Some?
    ensures MergedOne(t, m).value == Emptied(t, m).(products := MergedOne(t, m).value.products)
  {
  }

  /** A live campaign on a doubled template moves to the template of the same name with the smallest
      id among the kept product's live ones; no other campaign moves in this merge. */
  lemma MovesToSmallest(t: Tables, m: Merge, i: nat, x: Id)
    requires m.keep != m.drop && MergedOne(t, m).Some? && i < |t.campaigns|
    ensures var c, d, ts := t.campaigns[i], MergedOne(t, m).value.campaigns[i], t.templates;
            if c.live && c.template.Some? && c.template.value in ts && ts[c.template.value].live
               && ts[c.template.value].product == m.drop
               && exists k :: k in ts && ts[k].live && ts[k].product == m.keep
                              && ts[k].name == ts[c.template.value].name
            then
              && d.template.Some? && d.template.value in ts && ts[d.template.value].live
              && ts[d.template.value].product == m.keep && ts[d.template.value].name == ts[c.template.value].name
              && (x in ts && ts[x].live && ts[x].product == m.keep && ts[x].name == ts[c.template.value].name
                  ==> d.template.value <= x)
            else d.template == c.template
  {
    var c, ts := t.campaigns[i], t.templates;
    MergedOneIs(t, m);
    assert MergedOne(t, m).value.campaigns[i] == Rewritten(Retargeted(c, ts, m), m);
    if c.template.Some? && c.template.value in ts {
      var name := ts[c.template.value].name;
      if k :| k in ts && ts[k].live && ts[k].product == m.keep && ts[k].name == name {
        assert k in Named(ts, m.keep, name);
      }
      if x in ts && ts[x].live && ts[x].product == m.keep && ts[x].name == name {
        assert x in Named(ts, m.keep, name);
      }
    }
  }

  lemma FollowsOne(t: Tables, m: Merge, i: nat)
    requires m.keep != m.drop && MergedOne(t, m).Some? && i < |t.campaigns|
    ensures Follows(t, MergedOne(t, m).value, [m], i)
  {
    var c, gone := t.campaigns[i], Doubles(t.templates, m);
    var d := Retargeted(c, t.templates, m);
    MergedOneIs(t, m);
    assert MergedOne(t, m).value.campaigns[i] == Rewritten(d, m);
    if c.template.Some? && c.template.value in t.templates {
      var x := t.templates[c.template.value];
      RepOfOne(m, x.product);
      if c.template.value in gone {
        DoublesAreNamed(t.templates, m, c.template.value);
        assert RetargetedAll(t.campaigns, t.templates, m)[i] == d;
        assert c.live;
      }
    }
  }

  // ---- Product lists ----------------------------------------------------------------------

  lemma DistinctNext<T>(s: seq<T>, x: T)
    ensures Distinct(s + [x]) == if x in s then Distinct(s) else Distinct(s) + [x]
  {
    assert (s + [x])[..|s|] == s;
    DistinctKeeps(s);
  }

  lemma {:induction false} DistinctOfDistinct<T>(s: seq<T>)
    requires NoRepeats(s)
    ensures Distinct(s) == s
  {
    if s != [] {
      var front, last := s[..|s| - 1], s[|s| - 1];
      assert s == front + [last];
      DistinctOfDistinct(front);
      DistinctNext(front, last);
    }
  }

  lemma RepsNext(ms: seq<Merge>, ids: seq<Id>, x: Id)
    ensures Distinct(Reps(ms, ids + [x]))
         == if Rep(ms, x) in Reps(ms, ids) then Distinct(Reps(ms, ids)) else Distinct(Reps(ms, ids)) + [Rep(ms, x)]
    ensures x in ids ==> Rep(ms, x) in Reps(ms, ids)
  {
    assert Reps(ms, ids + [x]) == Reps(ms, ids) + [Rep(ms, x)];
    DistinctNext(Reps(ms, ids), Rep(ms, x));
    if x in ids {
      var i :| 0 <= i < |ids| && ids[i] == x;
      assert Reps(ms, ids)[i] == Rep(ms, x);
    }
  }

  lemma SameMembers<T>(s: seq<T>, t: seq<T>, x: T)
    requires Distinct(s) == Distinct(t)
    ensures x in s <==> x in t
  {
    DistinctKeeps(s);
    DistinctKeeps(t);
    assert x in Distinct(s) <==> x in Distinct(t);
  }

  /** Dropping repeats before the products are renamed changes nothing. */
  lemma {:induction false} DistinctReps(ms: seq<Merge>, ids: seq<Id>)
    ensures Distinct(Reps(ms, Distinct(ids))) == Distinct(Reps(ms, ids))
  {
    if ids == [] {
      assert Distinct(ids) == ids;
    } else {
      var front, last := ids[..|ids| - 1], ids[|ids| - 1];
      DistinctReps(ms, front);
      DistinctKeeps(front);
      assert ids == front + [last];
      DistinctNext(front, last);
      RepsNext(ms, front, last);
      if last !in front {
        RepsNext(ms, Distinct(front), last);
        SameMembers(Reps(ms, Distinct(front)), Reps(ms, front), Rep(ms, last));
      }
    }
  }

  predicate HasList(p: ProductIds) {
    p.Listed? || p.Quoted? || p.Keyed?
  }

  /** A live campaign's readable list holds, in order of first appearance, the merged products
      and nothing else, and no product twice if it listed none twice or was rewritten. */
  predicate Relists(t: Tables, after: Tables, ms: seq<Merge>, i: nat) {
    && i < |t.campaigns| == |after.campaigns|
    && var c, d := t.campaigns[i], after.campaigns[i];
       && c.live == d.live
       && (c.live && HasList(c.products) ==>
             && HasList(d.products)
             && Distinct(d.products.ids) == Distinct(Reps(ms, c.products.ids))
             && (NoRepeats(c.products.ids) ==> NoRepeats(d.products.ids))
             && ((exists k :: 0 <= k < |ms| && ms[k].drop in c.products.ids) ==> NoRepeats(d.products.ids)))
       && (!c.live || !HasList(c.products) ==> d.products == c.products)
  }

  lemma RelistsOne(t: Tables, m: Merge, i: nat)
    requires MergedOne(t, m).Some? && i < |t.campaigns|
    ensures Relists(t, MergedOne(t, m).value, [m], i)
  {
    var c := t.campaigns[i];
    var d := Retargeted(c, t.templates, m);
    MergedOneIs(t, m);
    assert MergedOne(t, m).value.campaigns[i] == Rewritten(d, m);
    if c.live && Readable(c.products) {
      var ids := c.products.ids;
      if m.drop in ids {
        DistinctKeeps(Reps([m], ids));
        DistinctOfDistinct(Distinct(Reps([m], ids)));
      } else {
        assert Reps([m], ids) == ids by {
          forall k | 0 <= k < |ids| ensures Rep([m], ids[k]) == ids[k] { RepOfOne(m, ids[k]); }
        }
      }
    }
  }

  // ---- Any list of merges -----------------------------------------------------------------

  lemma RepsOfReps(m: Merge, rest: seq<Merge>, ids: seq<Id>)
    ensures Reps(rest, Reps([m], ids)) == Reps([m] + rest, ids)
  {
    forall k | 0 <= k < |ids| ensures Rep(rest, Rep([m], ids[k])) == Rep([m] + rest, ids[k]) {
      RepConcat([m], rest, ids[k]);
    }
  }

  lemma RelistsTrans(t: Tables, mid: Tables, after: Tables, m: Merge, rest: seq<Merge>, i: nat)
    requires Relists(t, mid, [m], i) && Relists(mid, after, rest, i)
    ensures Relists(t, after, [m] + rest, i)
  {
    var c, e := t.campaigns[i], mid.campaigns[i];
    if c.live && Readable(c.products) {
      var ids := c.products.ids;
      DistinctReps(rest, e.products.ids);
      DistinctReps(rest, Reps([m], ids));
      RepsOfReps(m, rest, ids);
      DistinctKeeps(e.products.ids);
      DistinctKeeps(Reps([m], ids));
      if k :| 0 <= k < |[m] + rest| && ([m] + rest)[k].drop in ids {
        if k == 0 {
          assert [m][0].drop in ids;
        } else if m.drop !in ids {
          var x := rest[k - 1].drop;
          var p :| 0 <= p < |ids| && ids[p] == x;
          assert Reps([m], ids)[p] == x by { RepOfOne(m, x); }
          assert x in Distinct(Reps([m], ids)) && x in e.products.ids;
        } else {
          assert [m][0].drop in ids;
        }
      }
    }
  }

  lemma {:induction false} ProductListsFollow(t: Tables, ms: seq<Merge>, i: nat)
    requires MergedAll(t, ms).Some? && i < |t.campaigns|
    ensures Relists(t, MergedAll(t, ms).value, ms, i)
    decreases |ms|
  {
    if ms == [] {
      var c := t.campaigns[i];
      if c.live && Readable(c.products) { assert Reps([], c.products.ids) == c.products.ids; }
    } else {
      var next := MergedOne(t, ms[0]).value;
      RelistsOne(t, ms[0], i);
      ProductListsFollow(next, ms[1..], i);
      RelistsTrans(t, next, MergedAll(t, ms).value, ms[0], ms[1..], i);
      assert [ms[0]] + ms[1..] == ms;
    }
  }

  lemma {:induction false} CampaignsFollow(t: Tables, ms: seq<Merge>, i: nat)
    requires Proper(ms) && MergedAll(t, ms).Some? && i < |t.campaigns|
    ensures Follows(t, MergedAll(t, ms).value, ms, i)
    decreases |ms|
  {
    if ms != [] {
      var next := MergedOne(t, ms[0]).value;
      FollowsOne(t, ms[0], i);
      CampaignsFollow(next, ms[1..], i);
      var c := t.campaigns[i];
      if c.template.Some? && c.template.value in t.templates {
        RepConcat([ms[0]], ms[1..], t.templates[c.template.value].product);
        assert [ms[0]] + ms[1..] == ms;
      }
    }
  }

  /** Inventory, assignments, offers and every plain reference move along the product map. */
  lemma {:induction false} ReferencesFollow(t: Tables, ms: seq<Merge>, g: iset<Id>, user: Id, name: string,
                                            table: string)
    requires Proper(ms) && MergedAll(t, ms).Some?
    ensures var after := MergedAll(t, ms).value;
            && after.levels == MergedLevelsAll(t.levels, ms)
            && (Assigned(after.assignments, user, g) <==> Assigned(t.assignments, user, ViaAll(g, ms)))
            && (NoRepeats(t.assignments) ==> NoRepeats(after.assignments))
            && (Offered(after.templates, name, g) <==> Offered(t.templates, name, ViaAll(g, ms)))
            && (table in after.refs <==> table in t.refs)
            && (table in t.refs ==> after.refs[table] == Reps(ms, t.refs[table]))
    decreases |ms|
  {
    if ms == [] {
      assert ViaAll(g, ms) == g;
      if table in t.refs { assert Reps([], t.refs[table]) == t.refs[table]; }
    } else {
      var m, rest := ms[0], ms[1..];
      var next := MergedOne(t, m).value;
      MergedOneIs(t, m);
      ReferencesFollow(next, rest, g, user, name, table);
      AssignedQuotient(t.assignments, m, user, ViaAll(g, rest));
      OfferedQuotient(t.templates, m, name, ViaAll(g, rest));
      assert Via(ViaAll(g, rest), m) == ViaAll(g, ms);
      if table in t.refs {
        RepsOfReps(m, rest, t.refs[table]);
        assert [m] + rest == ms;
      }
    }
  }

  /** A campaign's product list and the name and product of its template, in two databases. */
  predicate SameCampaign(a: Tables, b: Tables, i: nat) {
    && i < |a.campaigns| == |b.campaigns|
    && var c, d := a.campaigns[i], b.campaigns[i];
       && (c.live && Readable(c.products) && d.live && Readable(d.products) ==>
             Distinct(c.products.ids) == Distinct(d.products.ids))
       && (c.template.Some? && c.template.value in a.templates
           && d.template.Some? && d.template.value in b.templates ==>
             a.templates[c.template.value] == b.templates[d.template.value])
  }

  /** Two lists of merges with the same product map leave the same stock, reservations,
      assignments, offers and references, and every campaign on the same products and on a
      template of the same product and name, wherever both go through. */
  lemma OrderIndependent(t: Tables, ms: seq<Merge>, ns: seq<Merge>, g: iset<Id>, l: Id, user: Id, name: string,
                         table: string)
    requires Unique(t.levels) && Proper(ms) && Proper(ns) && forall x :: Rep(ms, x) == Rep(ns, x)
    requires MergedAll(t, ms).Some? && MergedAll(t, ns).Some? && table in t.refs
    ensures var a, b := MergedAll(t, ms).value, MergedAll(t, ns).value;
            && Sum(a.levels, g, l) == Sum(b.levels, g, l)
            && (Stocked(a.levels, g, l) <==> Stocked(b.levels, g, l))
            && (Assigned(a.assignments, user, g) <==> Assigned(b.assignments, user, g))
            && (Offered(a.templates, name, g) <==> Offered(b.templates, name, g))
            && table in a.refs && table in b.refs && a.refs[table] == b.refs[table]
  {
    assert ViaAll(g, ms) == ViaAll(g, ns);
    StockQuotient(t.levels, ms, g, l);
    StockQuotient(t.levels, ns, g, l);
    ReferencesFollow(t, ms, g, user, name, table);
    ReferencesFollow(t, ns, g, user, name, table);
    assert Reps(ms, t.refs[table]) == Reps(ns, t.refs[table]);
  }

  /** The same for every live campaign whose template, if any, is in the database. */
  lemma CampaignsOrderIndependent(t: Tables, ms: seq<Merge>, ns: seq<Merge>, i: nat)
    requires Proper(ms) && Proper(ns) && forall x :: Rep(ms, x) == Rep(ns, x)
    requires MergedAll(t, ms).Some? && MergedAll(t, ns).Some? && i < |t.campaigns|
    requires t.campaigns[i].template.Some? ==> t.campaigns[i].template.value in t.templates
    ensures SameCampaign(MergedAll(t, ms).value, MergedAll(t, ns).value, i)
    ensures var c, d, e := t.campaigns[i], MergedAll(t, ms).value.campaigns[i], MergedAll(t, ns).value.campaigns[i];
            c.live && Readable(c.products) ==> d.live && Readable(d.products) && e.live && Readable(e.products)
  {
    CampaignsFollow(t, ms, i);
    CampaignsFollow(t, ns, i);
    ProductListsFollow(t, ms, i);
    ProductListsFollow(t, ns, i);
    TemplateKept(t, ms, i);
    TemplateKept(t, ns, i);
    var c := t.campaigns[i];
    if Readable(c.products) { assert Reps(ms, c.products.ids) == Reps(ns, c.products.ids); }
  }

  /** A campaign without a template does not get one. */
  lemma {:induction false} TemplateKept(t: Tables, ms: seq<Merge>, i: nat)
    requires MergedAll(t, ms).Some? && i < |t.campaigns|
    ensures |MergedAll(t, ms).value.campaigns| == |t.campaigns|
    ensures MergedAll(t, ms).value.campaigns[i].template.Some? <==> t.campaigns[i].template.Some?
    decreases |ms|
  {
    if ms != [] {
      MergedOneIs(t, ms[0]);
      var next := MergedOne(t, ms[0]).value;
      assert next.campaigns[i] == Rewritten(Retargeted(t.campaigns[i], t.templates, ms[0]), ms[0]);
      TemplateKept(next, ms[1..], i);
    }
  }

  /** A group may be merged in any order of its members. */
  lemma GroupInAnyOrder(keep: Id, ids: seq<Id>, others: seq<Id>, x: Id)
    requires forall y :: y in ids <==> y in others
    ensures Rep(GroupMerges(keep, ids), x) == Rep(GroupMerges(keep, others), x)
  {
    RepOfGroup(keep, ids, x);
    RepOfGroup(keep, others, x);
  }

  // ---- The product rows -------------------------------------------------------------------

  predicate IsDropped(ms: seq<Merge>, p: Id) {
    exists i :: 0 <= i < |ms| && ms[i].drop == p
  }

  /** A row is there afterwards, as it was, exactly if it was there before and is not the current
      row of a dropped product. */
  lemma {:induction false} RowsAre(t: Tables, ms: seq<Merge>, p: Id)
    requires MergedAll(t, ms).Some?
    ensures var after := MergedAll(t, ms).value.products;
            && (p in after <==> p in t.products && !(t.products[p] && IsDropped(ms, p)))
            && (p in after ==> after[p] == t.products[p])
    decreases |ms|
  {
    if ms != [] {
      var m, rest := ms[0], ms[1..];
      RowsAre(MergedOne(t, m).value, rest, p);
      assert IsDropped(ms, p) <==> m.drop == p || IsDropped(rest, p) by {
        forall i | 0 < i < |ms| ensures ms[i] == rest[i - 1] {}
        if IsDropped(rest, p) {
          var i :| 0 <= i < |rest| && rest[i].drop == p;
          assert ms[i + 1] == rest[i];
        }
      }
      MergedRow(t, m, p);
    }
  }

  lemma MergedRow(t: Tables, m: Merge, p: Id)
    requires MergedOne(t, m).Some?
    ensures var after := MergedOne(t, m).value.products;
            && (p in after <==> p in t.products && !(t.products[p] && m.drop == p))
            && (p in after ==> after[p] == t.products[p])
  {
  }

  lemma DroppedConcat(a: seq<Merge>, b: seq<Merge>, p: Id)
    ensures IsDropped(a + b, p) <==> IsDropped(a, p) || IsDropped(b, p)
  {
    if i :| 0 <= i < |a| && a[i].drop == p { assert (a + b)[i].drop == p; }
    if i :| 0 <= i < |b| && b[i].drop == p { assert (a + b)[|a| + i].drop == p; }
  }

  lemma {:induction false} DroppedOfGroup(keep: Id, ids: seq<Id>, p: Id)
    ensures IsDropped(GroupMerges(keep, ids), p) <==> p in ids && p != keep
  {
    if ids != [] {
      var front, last := ids[..|ids| - 1], ids[|ids| - 1];
      DroppedOfGroup(keep, front, p);
      DroppedConcat(GroupMerges(keep, front), if last == keep then [] else [Merge(keep, last)], p);
      if last != keep { assert [Merge(keep, last)][0].drop == last; }
      assert ids == front + [last];
    }
  }

  lemma {:induction false} DroppedOfPlan(groups: seq<Group>, p: Id)
    ensures IsDropped(Plan(groups), p) <==> exists i :: 0 <= i < |groups| && p in groups[i].all && p != groups[i].keep
  {
    if groups != [] {
      var front, last := groups[..|groups| - 1], groups[|groups| - 1];
      DroppedOfPlan(front, p);
      DroppedOfGroup(last.keep, last.all, p);
      DroppedConcat(Plan(front), GroupMerges(last.keep, last.all), p);
      forall i | 0 <= i < |front| ensures front[i] == groups[i] {}
    }
  }

  /** After the planned merges of disjoint groups each kept product has the row it had, no other
      member of a group has a current row, and every ended row and every product outside the groups
      is as it was. */
  lemma PlannedRows(t: Tables, groups: seq<Group>, p: Id)
    requires Apart(groups) && MergedAll(t, Plan(groups)).Some?
    ensures var after, before := MergedAll(t, Plan(groups)).value.products, t.products;
            && (forall i :: 0 <= i < |groups| && p in groups[i].all && p != groups[i].keep ==>
                  (p in after <==> p in before && !before[p]) && (p in after ==> !after[p]))
            && ((exists i :: 0 <= i < |groups| && p == groups[i].keep)
                || (forall i :: 0 <= i < |groups| ==> p !in groups[i].all) ==>
                  (p in after <==> p in before) && (p in after ==> after[p] == before[p]))
  {
    RowsAre(t, Plan(groups), p);
    DroppedOfPlan(groups, p);
    forall i, j | 0 <= i < |groups| && p == groups[i].keep && 0 <= j < |groups| && p in groups[j].all
      ensures i == j
    {
      assert groups[i].keep in groups[i].all;
    }
  }

  // ---- When a merge fails ------------------------------------------------------------------

  lemma NamedAfter(ts: map<Id, Template>, m: Merge)
    requires m.keep != m.drop
    ensures forall name :: Named(MergedTemplates(ts, m), m.keep, name) != {}
                      <==> Named(ts, m.keep, name) != {} || Named(ts, m.drop, name) != {}
    ensures forall p, name :: p != m.keep && p != m.drop ==>
              Named(MergedTemplates(ts, m), p, name) == Named(ts, p, name)
  {
    var after := MergedTemplates(ts, m);
    forall name
      ensures Named(after, m.keep, name) != {} <==> Named(ts, m.keep, name) != {} || Named(ts, m.drop, name) != {}
    {
      if i :| i in Named(ts, m.keep, name) { assert i in Named(after, m.keep, name); }
      else if i :| i in Named(ts, m.drop, name) { assert i in Named(after, m.keep, name); }
      if i :| i in Named(after, m.keep, name) {
        assert i in Named(ts, m.keep, name) || i in Named(ts, m.drop, name);
      }
    }
  }

  /** One merge fails exactly if a campaign that has ended points at a template that would be
      deleted, a live campaign's list is other JSON that mentions the product, or the product row
      is current and one of its templates has ended or a bundle row names it. */
  lemma MergeFailsIff(t: Tables, m: Merge)
    requires Unique(t.levels) && m.keep != m.drop
    ensures MergedOne(t, m).None?
       <==> || (exists i :: 0 <= i < |t.campaigns| && !t.campaigns[i].live && t.campaigns[i].template.Some?
                            && t.campaigns[i].template.value in Doubles(t.templates, m))
            || (exists i :: 0 <= i < |t.campaigns| && Throws(t.campaigns[i], m))
            || (m.drop in t.products && t.products[m.drop]
                && (m.drop in t.bundles
                    || exists i :: i in t.templates && t.templates[i].product == m.drop && !t.templates[i].live))
  {
    PinnedIff(t, m);
    ReferencedIff(t, m);
  }

  lemma PinnedIff(t: Tables, m: Merge)
    requires m.keep != m.drop
    ensures TemplatesPinned(RetargetedAll(t.campaigns, t.templates, m), Doubles(t.templates, m))
       <==> exists i :: 0 <= i < |t.campaigns| && !t.campaigns[i].live && t.campaigns[i].template.Some?
                        && t.campaigns[i].template.value in Doubles(t.templates, m)
  {
    var cs, gone := RetargetedAll(t.campaigns, t.templates, m), Doubles(t.templates, m);
    forall i | 0 <= i < |cs|
      ensures (cs[i].template.Some? && cs[i].template.value in gone)
         <==> !t.campaigns[i].live && t.campaigns[i].template.Some? && t.campaigns[i].template.value in gone
    {
      var c := t.campaigns[i];
      if c.template.Some? && c.template.value in gone { DoublesAreNamed(t.templates, m, c.template.value); }
    }
  }

  lemma ReferencedIff(t: Tables, m: Merge)
    requires Unique(t.levels) && m.keep != m.drop
    ensures Referenced(Emptied(t, m), m.drop)
       <==> || m.drop in t.bundles
            || exists i :: i in t.templates && t.templates[i].product == m.drop && !t.templates[i].live
  {
    var done, none := Emptied(t, m), Is(m.drop);
    assert Via(none, m) == iset{};
    forall i | 0 <= i < |done.levels| ensures done.levels[i].product != m.drop {
      var r := done.levels[i];
      StockedQuotient(t.levels, m, none, r.location);
      assert r in done.levels;
    }
    forall i | 0 <= i < |done.assignments| ensures done.assignments[i].product != m.drop {
      var r := done.assignments[i];
      AssignedQuotient(t.assignments, m, r.user, none);
      assert r in done.assignments;
    }
    forall k | k in done.refs ensures m.drop !in done.refs[k] {
      var ids := t.refs[k];
      forall j | 0 <= j < |ids| ensures Reps([m], ids)[j] != m.drop { RepOfOne(m, ids[j]); }
      assert done.refs[k] == Reps([m], ids);
    }
    if i :| i in t.templates && t.templates[i].product == m.drop && !t.templates[i].live {
      assert i in done.templates && done.templates[i].product == m.drop;
    }
  }
}
