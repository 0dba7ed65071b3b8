/** What the order in which a group of duplicates is merged does decide: whose templates survive,
    and whether the transaction goes through. */
module ProductOrder {
  import opened Common
  import opened ProductInventory
  import opened ProductMerge
  import opened ProductLaws

  /** A group by its kept product and the others, in the order in which they are merged. */
  predicate IsGroup(keep: Id, ds: seq<Id>) {
    NoRepeats(ds) && keep !in ds
  }

  function Drops(keep: Id, ds: seq<Id>): seq<Merge> {
    seq(|ds|, j requires 0 <= j < |ds| => Merge(keep, ds[j]))
  }

  function Others(keep: Id, ids: seq<Id>): seq<Id> {
    if ids == [] then []
    else Others(keep, ids[..|ids| - 1]) + if ids[|ids| - 1] == keep then [] else [ids[|ids| - 1]]
  }

  /** The merges planned for a group's distinct ids are those of such a group. */
  lemma {:induction false} PlannedGroup(keep: Id, ids: seq<Id>)
    requires NoRepeats(ids)
    ensures GroupMerges(keep, ids) == Drops(keep, Others(keep, ids)) && IsGroup(keep, Others(keep, ids))
    ensures forall x :: x in Others(keep, ids) <==> x in ids && x != keep
  {
    if ids != [] {
      var front, last := ids[..|ids| - 1], ids[|ids| - 1];
      PlannedGroup(keep, front);
      assert ids == front + [last];
      forall i | 0 <= i < |front| ensures front[i] != last { assert ids[i] == front[i]; }
      assert last !in Others(keep, front);
    }
  }

  // ---- Which templates survive --------------------------------------------------------------

  function GroupTemplates(ts: map<Id, Template>, keep: Id, ds: seq<Id>): map<Id, Template>
    decreases |ds|
  {
    if ds == [] then ts else GroupTemplates(MergedTemplates(ts, Merge(keep, ds[0])), keep, ds[1..])
  }

  /** The first of the group, in the order of merging, with a live template of that name. */
  function FirstHolder(ts: map<Id, Template>, ds: seq<Id>, name: string): Option<Id> {
    if ds == [] then None
    else if Named(ts, ds[0], name) != {} then Some(ds[0])
    else FirstHolder(ts, ds[1..], name)
  }

  lemma {:induction false} FirstHolderIs(ts: map<Id, Template>, ds: seq<Id>, name: string)
    ensures match FirstHolder(ts, ds, name)
            case Some(d) => d in ds && Named(ts, d, name) != {}
            case None => forall d :: d in ds ==> Named(ts, d, name) == {}
  {
    if ds != [] { FirstHolderIs(ts, ds[1..], name); }
  }

  lemma {:induction false} FirstHolderSame(ts: map<Id, Template>, us: map<Id, Template>, ds: seq<Id>, name: string)
    requires forall d :: d in ds ==> Named(ts, d, name) == Named(us, d, name)
    ensures FirstHolder(ts, ds, name) == FirstHolder(us, ds, name)
  {
    if ds != [] {
      assert ds[0] in ds;
      FirstHolderSame(ts, us, ds[1..], name);
    }
  }

  predicate Dropped(x: Template, ds: seq<Id>) {
    x.live && x.product in ds
  }

  /** A dropped product's template survives exactly if the kept product lacks its name and no
      product merged earlier has it; then it is the kept product's. All others stay as they are. */
  predicate SurvivesAs(ts: map<Id, Template>, keep: Id, ds: seq<Id>, i: Id) {
    i in ts &&
    var x, after := ts[i], GroupTemplates(ts, keep, ds);
    if !Dropped(x, ds) then i in after && after[i] == x
    else
      && (i in after <==> Named(ts, keep, x.name) == {} && FirstHolder(ts, ds, x.name) == Some(x.product))
      && (i in after ==> after[i] == x.(product := keep))
  }

  lemma {:induction false} GroupKeys(ts: map<Id, Template>, keep: Id, ds: seq<Id>)
    ensures forall i :: i in GroupTemplates(ts, keep, ds) ==> i in ts
    decreases |ds|
  {
    if ds != [] { GroupKeys(MergedTemplates(ts, Merge(keep, ds[0])), keep, ds[1..]); }
  }

  lemma {:induction false} TemplateSurvives(ts: map<Id, Template>, keep: Id, ds: seq<Id>, i: Id)
    requires IsGroup(keep, ds) && i in ts
    ensures SurvivesAs(ts, keep, ds, i)
    decreases |ds|
  {
    if ds != [] {
      var m, rest, x := Merge(keep, ds[0]), ds[1..], ts[i];
      var us := MergedTemplates(ts, m);
      assert ds == [ds[0]] + rest && ds[0] !in rest;
      NamedAfter(ts, m);
      GroupKeys(us, keep, rest);
      if i in us {
        TemplateSurvives(us, keep, rest, i);
        forall d | d in rest ensures Named(us, d, x.name) == Named(ts, d, x.name) {}
        FirstHolderSame(us, ts, rest, x.name);
        if x.live && x.product == ds[0] { assert i in Named(ts, ds[0], x.name); }
      } else {
        assert i in Doubles(ts, m);
      }
    }
  }

  ghost predicate SameGroup(ds: seq<Id>, es: seq<Id>) {
    forall x :: x in ds <==> x in es
  }

  /** Two orders of a whole group leave the same templates exactly if, for every name the kept
      product lacks, the same product comes first among those that have it. */
  lemma TemplateOrderIff(ts: map<Id, Template>, keep: Id, ds: seq<Id>, es: seq<Id>)
    requires IsGroup(keep, ds) && IsGroup(keep, es) && SameGroup(ds, es)
    ensures GroupTemplates(ts, keep, ds) == GroupTemplates(ts, keep, es)
       <==> forall name :: Named(ts, keep, name) == {} ==> FirstHolder(ts, ds, name) == FirstHolder(ts, es, name)
  {
    if GroupTemplates(ts, keep, ds) == GroupTemplates(ts, keep, es) {
      forall name | Named(ts, keep, name) == {} ensures FirstHolder(ts, ds, name) == FirstHolder(ts, es, name) {
        SameFirst(ts, keep, ds, es, name);
      }
    }
    if forall name :: Named(ts, keep, name) == {} ==> FirstHolder(ts, ds, name) == FirstHolder(ts, es, name) {
      SameSurvivors(ts, keep, ds, es);
    }
  }

  lemma SameSurvivors(ts: map<Id, Template>, keep: Id, ds: seq<Id>, es: seq<Id>)
    requires IsGroup(keep, ds) && IsGroup(keep, es) && SameGroup(ds, es)
    requires forall name :: Named(ts, keep, name) == {} ==> FirstHolder(ts, ds, name) == FirstHolder(ts, es, name)
    ensures GroupTemplates(ts, keep, ds) == GroupTemplates(ts, keep, es)
  {
    var a, b := GroupTemplates(ts, keep, ds), GroupTemplates(ts, keep, es);
    GroupKeys(ts, keep, ds);
    GroupKeys(ts, keep, es);
    forall i | i in ts ensures (i in a <==> i in b) && (i in a ==> a[i] == b[i]) {
      TemplateSurvives(ts, keep, ds, i);
      TemplateSurvives(ts, keep, es, i);
    }
    assert a.Keys == b.Keys;
  }

  lemma SameFirst(ts: map<Id, Template>, keep: Id, ds: seq<Id>, es: seq<Id>, name: string)
    requires IsGroup(keep, ds) && IsGroup(keep, es) && SameGroup(ds, es)
    requires GroupTemplates(ts, keep, ds) == GroupTemplates(ts, keep, es) && Named(ts, keep, name) == {}
    ensures FirstHolder(ts, ds, name) == FirstHolder(ts, es, name)
  {
    FirstHolderIs(ts, ds, name);
    FirstHolderIs(ts, es, name);
    var h := FirstHolder(ts, ds, name);
    if h.Some? {
      var i :| i in Named(ts, h.value, name);
      TemplateSurvives(ts, keep, ds, i);
      TemplateSurvives(ts, keep, es, i);
    }
  }

  /** Two products of the group have a live template under a name that the kept product lacks. */
  predicate Contested(ts: map<Id, Template>, keep: Id, ds: seq<Id>, a: Id, b: Id, name: string) {
    a in ds && b in ds && a != b && Named(ts, keep, name) == {} && Named(ts, a, name) != {} && Named(ts, b, name) != {}
  }

  ghost predicate AnyContested(ts: map<Id, Template>, keep: Id, ds: seq<Id>) {
    exists a: Id, b: Id, name :: Contested(ts, keep, ds, a, b, name)
  }

  function Without(ds: seq<Id>, x: Id): seq<Id> {
    if ds == [] then [] else (if ds[0] == x then [] else [ds[0]]) + Without(ds[1..], x)
  }

  lemma {:induction false} WithoutIs(ds: seq<Id>, x: Id)
    requires NoRepeats(ds)
    ensures NoRepeats(Without(ds, x)) && forall y :: y in Without(ds, x) <==> y in ds && y != x
  {
    if ds != [] {
      WithoutIs(ds[1..], x);
      assert ds == [ds[0]] + ds[1..] && ds[0] !in ds[1..];
    }
  }

  /** The group with one product moved to the front. */
  function Led(ds: seq<Id>, x: Id): seq<Id> {
    [x] + Without(ds, x)
  }

  lemma LedIs(keep: Id, ds: seq<Id>, x: Id)
    requires IsGroup(keep, ds) && x in ds
    ensures IsGroup(keep, Led(ds, x)) && SameGroup(ds, Led(ds, x))
  {
    WithoutIs(ds, x);
  }

  /** The templates do not depend on the order of the group exactly if no name is contested. */
  lemma AnyOrderIff(ts: map<Id, Template>, keep: Id, ds: seq<Id>)
    requires IsGroup(keep, ds)
    ensures (forall es :: IsGroup(keep, es) && SameGroup(ds, es)
                          ==> GroupTemplates(ts, keep, es) == GroupTemplates(ts, keep, ds))
       <==> !AnyContested(ts, keep, ds)
  {
    if AnyContested(ts, keep, ds) {
      var a: Id, b: Id, name :| Contested(ts, keep, ds, a, b, name);
      LedIs(keep, ds, a);
      LedIs(keep, ds, b);
      TemplateOrderIff(ts, keep, Led(ds, a), Led(ds, b));
      assert FirstHolder(ts, Led(ds, a), name) == Some(a) && FirstHolder(ts, Led(ds, b), name) == Some(b);
    } else {
      forall es | IsGroup(keep, es) && SameGroup(ds, es)
        ensures GroupTemplates(ts, keep, es) == GroupTemplates(ts, keep, ds)
      {
        forall name | Named(ts, keep, name) == {} ensures FirstHolder(ts, ds, name) == FirstHolder(ts, es, name) {
          OneHolder(ts, keep, ds, es, name);
        }
        TemplateOrderIff(ts, keep, ds, es);
      }
    }
  }

  lemma OneHolder(ts: map<Id, Template>, keep: Id, ds: seq<Id>, es: seq<Id>, name: string)
    requires SameGroup(ds, es) && !AnyContested(ts, keep, ds) && Named(ts, keep, name) == {}
    ensures FirstHolder(ts, ds, name) == FirstHolder(ts, es, name)
  {
    FirstHolderIs(ts, ds, name);
    FirstHolderIs(ts, es, name);
    var a, b := FirstHolder(ts, ds, name), FirstHolder(ts, es, name);
    if a.Some? && b.Some? { assert !Contested(ts, keep, ds, a.value, b.value, name); }
  }

  /** These are the templates that the merges of the group leave. */
  lemma {:induction false} GroupTemplatesAre(t: Tables, keep: Id, ds: seq<Id>)
    requires MergedAll(t, Drops(keep, ds)).Some?
    ensures MergedAll(t, Drops(keep, ds)).value.templates == GroupTemplates(t.templates, keep, ds)
    decreases |ds|
  {
    if ds != [] {
      var ms := Drops(keep, ds);
      assert ms[0] == Merge(keep, ds[0]) && ms[1..] == Drops(keep, ds[1..]);
      MergedOneIs(t, ms[0]);
      GroupTemplatesAre(MergedOne(t, ms[0]).value, keep, ds[1..]);
    }
  }

  // ---- Which orders go through --------------------------------------------------------------

  /** A campaign that has ended points at a template that this order deletes. */
  predicate Pinned(t: Tables, keep: Id, ds: seq<Id>, i: nat) {
    && i < |t.campaigns| && !t.campaigns[i].live && t.campaigns[i].template.Some?
    && t.campaigns[i].template.value in t.templates
    && t.campaigns[i].template.value !in GroupTemplates(t.templates, keep, ds)
  }

  /** A live campaign's list is other JSON that mentions one of the products. */
  predicate Unmappable(t: Tables, ds: seq<Id>, i: nat) {
    && i < |t.campaigns| && t.campaigns[i].live && t.campaigns[i].products.Scalar?
    && exists d :: d in ds && d in t.campaigns[i].products.about
  }

  /** A current product of the group has a template that has ended. */
  predicate Anchored(t: Tables, ds: seq<Id>, i: Id) {
    && i in t.templates && !t.templates[i].live && t.templates[i].product in ds
    && t.templates[i].product in t.products && t.products[t.templates[i].product]
  }

  /** A current product of the group is a bundle or a component of one. */
  predicate Bundled(t: Tables, ds: seq<Id>) {
    exists d :: d in ds && d in t.bundles && d in t.products && t.products[d]
  }

  ghost predicate GroupFails(t: Tables, keep: Id, ds: seq<Id>) {
    || (exists i :: Pinned(t, keep, ds, i)) || (exists i :: Unmappable(t, ds, i))
    || (exists i :: Anchored(t, ds, i)) || Bundled(t, ds)
  }

  lemma FailsAtOnce(t: Tables, keep: Id, ds: seq<Id>)
    requires Unique(t.levels) && IsGroup(keep, ds) && ds != [] && MergedOne(t, Merge(keep, ds[0])).None?
    ensures GroupFails(t, keep, ds)
  {
    var m := Merge(keep, ds[0]);
    MergeFailsIff(t, m);
    assert ds[0] in ds;
    if i :| 0 <= i < |t.campaigns| && !t.campaigns[i].live && t.campaigns[i].template.Some?
            && t.campaigns[i].template.value in Doubles(t.templates, m) {
      GroupKeys(MergedTemplates(t.templates, m), keep, ds[1..]);
      assert Pinned(t, keep, ds, i);
    } else if i :| 0 <= i < |t.campaigns| && Throws(t.campaigns[i], m) {
      assert Unmappable(t, ds, i);
    } else if m.drop in t.bundles {
      assert Bundled(t, ds);
    } else {
      var i :| i in t.templates && t.templates[i].product == m.drop && !t.templates[i].live;
      assert Anchored(t, ds, i);
    }
  }

  lemma NotAtOnce(t: Tables, keep: Id, ds: seq<Id>)
    requires Unique(t.levels) && IsGroup(keep, ds) && ds != [] && MergedOne(t, Merge(keep, ds[0])).Some?
    ensures var next := MergedOne(t, Merge(keep, ds[0])).value;
            && Unique(next.levels)
            && ((exists i :: Pinned(t, keep, ds, i)) <==> (exists i :: Pinned(next, keep, ds[1..], i)))
            && ((exists i :: Unmappable(t, ds, i)) <==> (exists i :: Unmappable(next, ds[1..], i)))
            && ((exists i :: Anchored(t, ds, i)) <==> (exists i :: Anchored(next, ds[1..], i)))
            && (Bundled(t, ds) <==> Bundled(next, ds[1..]))
  {
    var m := Merge(keep, ds[0]);
    var next := MergedOne(t, m).value;
    MergedOneIs(t, m);
    MergedUnique(t.levels, m);
    forall i ensures Pinned(t, keep, ds, i) <==> Pinned(next, keep, ds[1..], i) { PinnedLater(t, keep, ds, i); }
    forall i ensures Unmappable(t, ds, i) <==> Unmappable(next, ds[1..], i) { UnmappableLater(t, keep, ds, i); }
    forall i ensures Anchored(t, ds, i) <==> Anchored(next, ds[1..], i) { AnchoredLater(t, keep, ds, i); }
    BundledLater(t, keep, ds);
  }

  lemma PinnedLater(t: Tables, keep: Id, ds: seq<Id>, i: nat)
    requires Unique(t.levels) && IsGroup(keep, ds) && ds != [] && MergedOne(t, Merge(keep, ds[0])).Some?
    ensures Pinned(t, keep, ds, i) <==> Pinned(MergedOne(t, Merge(keep, ds[0])).value, keep, ds[1..], i)
  {
    var m := Merge(keep, ds[0]);
    var next := MergedOne(t, m).value;
    MergedOneIs(t, m);
    MergeFailsIff(t, m);
    if i < |t.campaigns| {
      assert next.campaigns[i] == Rewritten(Retargeted(t.campaigns[i], t.templates, m), m);
      GroupKeys(next.templates, keep, ds[1..]);
    }
  }

  lemma UnmappableLater(t: Tables, keep: Id, ds: seq<Id>, i: nat)
    requires Unique(t.levels) && IsGroup(keep, ds) && ds != [] && MergedOne(t, Merge(keep, ds[0])).Some?
    ensures Unmappable(t, ds, i) <==> Unmappable(MergedOne(t, Merge(keep, ds[0])).value, ds[1..], i)
  {
    var m := Merge(keep, ds[0]);
    var next := MergedOne(t, m).value;
    MergedOneIs(t, m);
    MergeFailsIff(t, m);
    assert ds == [ds[0]] + ds[1..];
    if i < |t.campaigns| {
      assert next.campaigns[i] == Rewritten(Retargeted(t.campaigns[i], t.templates, m), m);
      assert !Throws(t.campaigns[i], m);
    }
  }

  lemma AnchoredLater(t: Tables, keep: Id, ds: seq<Id>, i: Id)
    requires Unique(t.levels) && IsGroup(keep, ds) && ds != [] && MergedOne(t, Merge(keep, ds[0])).Some?
    ensures Anchored(t, ds, i) <==> Anchored(MergedOne(t, Merge(keep, ds[0])).value, ds[1..], i)
  {
    var m := Merge(keep, ds[0]);
    MergedOneIs(t, m);
    MergeFailsIff(t, m);
    assert ds == [ds[0]] + ds[1..] && ds[0] !in ds[1..];
  }

  lemma BundledLater(t: Tables, keep: Id, ds: seq<Id>)
    requires Unique(t.levels) && IsGroup(keep, ds) && ds != [] && MergedOne(t, Merge(keep, ds[0])).Some?
    ensures Bundled(t, ds) <==> Bundled(MergedOne(t, Merge(keep, ds[0])).value, ds[1..])
  {
    var m := Merge(keep, ds[0]);
    MergedOneIs(t, m);
    MergeFailsIff(t, m);
    assert ds == [ds[0]] + ds[1..] && ds[0] !in ds[1..];
  }

  /** A group fails exactly if its order deletes a template that an ended campaign points at, or a
      live campaign's list is other JSON that names one of the products, or a current product of it
      has a template that has ended, or is named by a bundle row. */
  lemma {:induction false} GroupFailsIff(t: Tables, keep: Id, ds: seq<Id>)
    requires Unique(t.levels) && IsGroup(keep, ds)
    ensures MergedAll(t, Drops(keep, ds)).None? <==> GroupFails(t, keep, ds)
    decreases |ds|
  {
    if ds != [] {
      var ms := Drops(keep, ds);
      assert ms[0] == Merge(keep, ds[0]) && ms[1..] == Drops(keep, ds[1..]);
      if MergedOne(t, ms[0]).None? {
        FailsAtOnce(t, keep, ds);
      } else {
        NotAtOnce(t, keep, ds);
        GroupFailsIff(MergedOne(t, ms[0]).value, keep, ds[1..]);
      }
    }
  }

  /** Of the four reasons only the first depends on the order: one order goes through and
      another does not exactly if nothing else is wrong and only the other deletes a template
      that an ended campaign points at. */
  lemma OneOrderOnlyIff(t: Tables, keep: Id, ds: seq<Id>, es: seq<Id>)
    requires Unique(t.levels) && IsGroup(keep, ds) && IsGroup(keep, es) && SameGroup(ds, es)
    ensures MergedAll(t, Drops(keep, ds)).Some? && MergedAll(t, Drops(keep, es)).None?
       <==> && !(exists i :: Unmappable(t, ds, i)) && !(exists i :: Anchored(t, ds, i)) && !Bundled(t, ds)
            && !(exists i :: Pinned(t, keep, ds, i)) && (exists i :: Pinned(t, keep, es, i))
  {
    GroupFailsIff(t, keep, ds);
    GroupFailsIff(t, keep, es);
    forall i ensures Unmappable(t, ds, i) <==> Unmappable(t, es, i) {}
    forall i ensures Anchored(t, ds, i) <==> Anchored(t, es, i) {}
    assert Bundled(t, ds) <==> Bundled(t, es);
  }

  /** Products 1 and 2 both have a template named "n", and an ended campaign points at that of 1. */
  function TwoTemplates(): map<Id, Template> {
    map[10 := Template(1, "n", true), 20 := Template(2, "n", true)]
  }

  function TwoProducts(): Tables {
    Tables(map[], [], map[], [], TwoTemplates(), [], [Campaign(Some(10), Absent, false)])
  }

  lemma TwoHolders()
    ensures Named(TwoTemplates(), 0, "n") == {}
    ensures Named(TwoTemplates(), 1, "n") != {} && Named(TwoTemplates(), 2, "n") != {}
  {
    assert 10 in Named(TwoTemplates(), 1, "n") && 20 in Named(TwoTemplates(), 2, "n");
  }

  lemma KeptIffFirst(ds: seq<Id>)
    requires IsGroup(0, ds) && 1 in ds
    ensures 10 in GroupTemplates(TwoTemplates(), 0, ds) <==> FirstHolder(TwoTemplates(), ds, "n") == Some(1)
  {
    TwoHolders();
    TemplateSurvives(TwoTemplates(), 0, ds, 10);
  }

  lemma NothingElseFails(ds: seq<Id>)
    ensures !(exists i :: Unmappable(TwoProducts(), ds, i)) && !(exists i :: Anchored(TwoProducts(), ds, i))
    ensures !Bundled(TwoProducts(), ds)
    ensures (exists i :: Pinned(TwoProducts(), 0, ds, i)) <==> 10 !in GroupTemplates(TwoTemplates(), 0, ds)
  {
    if 10 !in GroupTemplates(TwoTemplates(), 0, ds) { assert Pinned(TwoProducts(), 0, ds, 0); }
  }

  /** One input: merged first, product 1 keeps its template; merged second, it would have to go
      while the ended campaign still points at it. */
  lemma OrderDecides()
    ensures MergedAll(TwoProducts(), Drops(0, [1, 2])).Some? && MergedAll(TwoProducts(), Drops(0, [2, 1])).None?
  {
    TwoHolders();
    KeptIffFirst([1, 2]);
    KeptIffFirst([2, 1]);
    NothingElseFails([1, 2]);
    NothingElseFails([2, 1]);
    GroupFailsIff(TwoProducts(), 0, [1, 2]);
    GroupFailsIff(TwoProducts(), 0, [2, 1]);
  }

  /** One input: two current duplicates with nothing attached but a bundle row that names the one
      to be dropped. It is never repointed, so the row cannot be deleted and nothing is merged. */
  lemma BundledFails(keep: Id, drop: Id, other: Id)
    requires keep != drop
    ensures var t := Tables(map[keep := true, drop := true], [], map[], [other, drop], map[], [], []);
            MergedAll(t, [Merge(keep, drop)]).None?
  {
    var t := Tables(map[keep := true, drop := true], [], map[], [other, drop], map[], [], []);
    MergeFailsIff(t, Merge(keep, drop));
    assert [Merge(keep, drop)][0] == Merge(keep, drop);
  }
}
