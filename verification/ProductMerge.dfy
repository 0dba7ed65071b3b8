/** The duplicate-product script: one statement after the other over the tables that mention a
    product, for a list of merges in one transaction. */
module ProductMerge {
  import opened Common
  import opened ProductInventory

  datatype Template = Template(product: Id, name: string, live: bool)
  datatype Assignment = Assignment(user: Id, product: Id)

  /** The `product_ids` column as the script meets it: absent, a JSON array, a string that holds
      an array, an object's values, a string that is not JSON, or a string that holds other JSON. */
  datatype ProductIds =
    | Absent
    | Listed(ids: seq<Id>)
    | Quoted(ids: seq<Id>)
    | Keyed(ids: seq<Id>)
    | Garbled(about: set<Id>)
    | Scalar(about: set<Id>)

  datatype Campaign = Campaign(template: Option<Id>, products: ProductIds, live: bool)

  /** `products` tells the current rows from the ended ones; `refs` is the `product_id` column of
      every other table that references a product. `bundles` are the products that a bundle row
      names, as the bundle or as a component: two foreign keys under other column names, which the
      script does not find and so never repoints. */
  datatype Tables = Tables(
    products: map<Id, bool>, levels: seq<Level>, refs: map<string, seq<Id>>, bundles: seq<Id>,
    templates: map<Id, Template>, assignments: seq<Assignment>, campaigns: seq<Campaign>)

  const SKIP := {"products", "inventory_levels", "offer_templates", "user_product_assignments"}

  // ---- Statements -------------------------------------------------------------------------

  function MergedRefs(refs: map<string, seq<Id>>, m: Merge): map<string, seq<Id>> {
    map t | t in refs :: Reps([m], refs[t])
  }

  function Undoubled(rows: seq<Assignment>, all: seq<Assignment>, m: Merge): seq<Assignment> {
    if rows == [] then []
    else if rows[0].product == m.drop && Assignment(rows[0].user, m.keep) in all then Undoubled(rows[1..], all, m)
    else [rows[0]] + Undoubled(rows[1..], all, m)
  }

  function Moved(rows: seq<Assignment>, m: Merge): seq<Assignment> {
    seq(|rows|, i requires 0 <= i < |rows| => rows[i].(product := Sub(m, rows[i].product)))
  }

  function MergedAssignments(rows: seq<Assignment>, m: Merge): seq<Assignment> {
    Moved(Undoubled(rows, rows, m), m)
  }

  /** The live templates of one product under one name. */
  function Named(ts: map<Id, Template>, p: Id, name: string): set<Id> {
    set i | i in ts && ts[i] == Template(p, name, true)
  }

  /** The live templates of the dropped product that the kept product has under the same name. */
  function Doubles(ts: map<Id, Template>, m: Merge): set<Id> {
    set i | i in ts && ts[i].live && ts[i].product == m.drop && Named(ts, m.keep, ts[i].name) != {}
  }

  predicate IsLeast(s: set<Id>, m: Id) {
    m in s && forall x :: x in s ==> m <= x
  }

  lemma {:induction false} LeastExists(s: set<Id>) returns (m: Id)
    requires s != {}
    ensures IsLeast(s, m)
  {
    m :| m in s;
    var rest := s - {m};
    if rest != {} {
      var other := LeastExists(rest);
      forall x | x in s ensures x == m || other <= x { assert x == m || x in rest; }
      if other < m { m := other; }
    } else {
      forall x | x in s ensures x == m { assert x !in rest; }
    }
  }

  lemma LeastIs(s: set<Id>)
    requires s != {}
    ensures exists m :: IsLeast(s, m)
  {
    var m := LeastExists(s);
  }

  function Least(s: set<Id>): (m: Id)
    requires s != {}
    ensures IsLeast(s, m)
  {
    LeastIs(s);
    var m :| IsLeast(s, m);
    m
  }

  function Retargeted(c: Campaign, ts: map<Id, Template>, m: Merge): Campaign {
    if c.live && c.template.Some? && c.template.value in Doubles(ts, m)
    then c.(template := Some(Least(Named(ts, m.keep, ts[c.template.value].name)))) else c
  }

  function RetargetedAll(cs: seq<Campaign>, ts: map<Id, Template>, m: Merge): seq<Campaign> {
    seq(|cs|, i requires 0 <= i < |cs| => Retargeted(cs[i], ts, m))
  }

  function MergedTemplates(ts: map<Id, Template>, m: Merge): map<Id, Template> {
    map i | i in ts && i !in Doubles(ts, m) ::
      if ts[i].live && ts[i].product == m.drop then ts[i].(product := m.keep) else ts[i]
  }

  /** A foreign key stops the deletion of templates that some campaign still points at. */
  predicate TemplatesPinned(cs: seq<Campaign>, gone: set<Id>) {
    exists i :: 0 <= i < |cs| && cs[i].template.Some? && cs[i].template.value in gone
  }

  predicate Readable(p: ProductIds) {
    p.Listed? || p.Quoted? || p.Keyed?
  }

  function Rewritten(c: Campaign, m: Merge): Campaign {
    if c.live && Readable(c.products) && m.drop in c.products.ids
    then c.(products := Listed(Distinct(Reps([m], c.products.ids)))) else c
  }

  function RewrittenAll(cs: seq<Campaign>, m: Merge): seq<Campaign> {
    seq(|cs|, i requires 0 <= i < |cs| => Rewritten(cs[i], m))
  }

  /** `.map` on what is not an array throws. */
  predicate Throws(c: Campaign, m: Merge) {
    c.live && c.products.Scalar? && m.drop in c.products.about
  }

  lemma RetargetingThrowsNot(cs: seq<Campaign>, ts: map<Id, Template>, m: Merge)
    ensures (exists i :: 0 <= i < |cs| && Throws(RetargetedAll(cs, ts, m)[i], m))
       <==> exists i :: 0 <= i < |cs| && Throws(cs[i], m)
  {
    forall i | 0 <= i < |cs| ensures Throws(RetargetedAll(cs, ts, m)[i], m) == Throws(cs[i], m) { }
  }

  predicate Referenced(t: Tables, p: Id) {
    || (exists i :: 0 <= i < |t.levels| && t.levels[i].product == p)
    || (exists k :: k in t.refs && p in t.refs[k])
    || p in t.bundles
    || (exists i :: i in t.templates && t.templates[i].product == p)
    || (exists i :: 0 <= i < |t.assignments| && t.assignments[i].product == p)
  }

  /** Everything but the deletion of the product row. */
  function Emptied(t: Tables, m: Merge): Tables {
    t.(levels := MergedLevels(t.levels, m), refs := MergedRefs(t.refs, m),
       templates := MergedTemplates(t.templates, m), assignments := MergedAssignments(t.assignments, m),
       campaigns := RewrittenAll(RetargetedAll(t.campaigns, t.templates, m), m))
  }

  /** One merge; none when a statement fails. */
  function MergedOne(t: Tables, m: Merge): Option<Tables> {
    var done, live := Emptied(t, m), m.drop in t.products && t.products[m.drop];
    if TemplatesPinned(RetargetedAll(t.campaigns, t.templates, m), Doubles(t.templates, m)) then None
    else if exists i :: 0 <= i < |t.campaigns| && Throws(t.campaigns[i], m) then None
    else if live && Referenced(done, m.drop) then None
    else Some(if live then done.(products := done.products - {m.drop}) else done)
  }

  function MergedAll(t: Tables, ms: seq<Merge>): Option<Tables>
    decreases |ms|
  {
    if ms == [] then Some(t)
    else match MergedOne(t, ms[0]) case None => None case Some(next) => MergedAll(next, ms[1..])
  }

  // ---- The list of merges -----------------------------------------------------------------

  /** Products that count as one; the script keeps the smallest id. */
  datatype Group = Group(keep: Id, all: seq<Id>)

  function GroupMerges(keep: Id, ids: seq<Id>): seq<Merge> {
    if ids == [] then []
    else
      var last := ids[|ids| - 1];
      GroupMerges(keep, ids[..|ids| - 1]) + if last == keep then [] else [Merge(keep, last)]
  }

  function Plan(groups: seq<Group>): seq<Merge> {
    if groups == [] then []
    else
      var last := groups[|groups| - 1];
      Plan(groups[..|groups| - 1]) + GroupMerges(last.keep, last.all)
  }

  lemma GroupMergesNext(keep: Id, ids: seq<Id>, i: nat)
    requires i < |ids|
    ensures GroupMerges(keep, ids[..i + 1])
         == GroupMerges(keep, ids[..i]) + if ids[i] == keep then [] else [Merge(keep, ids[i])]
  {
    assert ids[..i + 1][..i] == ids[..i];
  }

  lemma PlanNext(groups: seq<Group>, i: nat)
    requires i < |groups|
    ensures Plan(groups[..i + 1]) == Plan(groups[..i]) + GroupMerges(groups[i].keep, groups[i].all)
  {
    assert groups[..i + 1][..i] == groups[..i];
  }

  method PlanMerges(groups: seq<Group>) returns (merges: seq<Merge>)
    ensures merges == Plan(groups)
  {
    merges := [];
    for i := 0 to |groups|
      invariant merges == Plan(groups[..i])
    {
      var keep, ids := groups[i].keep, groups[i].all;
      for j := 0 to |ids|
        invariant merges == Plan(groups[..i]) + GroupMerges(keep, ids[..j])
      {
        GroupMergesNext(keep, ids, j);
        if ids[j] != keep { merges := merges + [Merge(keep, ids[j])]; }
      }
      assert ids[..|ids|] == ids;
      PlanNext(groups, i);
    }
    assert groups[..|groups|] == groups;
  }

  // ---- The script -------------------------------------------------------------------------

  class ProductStore {
    var products: map<Id, bool>
    var levels: seq<Level>
    var refs: map<string, seq<Id>>
    var bundles: seq<Id>
    var templates: map<Id, Template>
    var assignments: seq<Assignment>
    var campaigns: seq<Campaign>

    constructor (t: Tables)
      ensures Snapshot() == t
    {
      products, levels, refs, bundles := t.products, t.levels, t.refs, t.bundles;
      templates, assignments, campaigns := t.templates, t.assignments, t.campaigns;
    }

    function Snapshot(): Tables
      reads this
    {
      Tables(products, levels, refs, bundles, templates, assignments, campaigns)
    }

    method MergeInventoryLevels(m: Merge)
      modifies this`levels
      ensures levels == MergedLevels(old(levels), m)
    {
      levels := Absorbed(levels, levels, m);
      levels := Remaining(levels, levels, m);
      levels := Repointed(levels, m);
    }

    method RepointTableProductId(table: string, m: Merge)
      requires table in refs
      modifies this`refs
      ensures refs == old(refs)[table := Reps([m], old(refs)[table])]
    {
      refs := refs[table := Reps([m], refs[table])];
    }

    /** False when a campaign that has ended still points at a template about to be deleted. */
    method MergeOfferTemplates(m: Merge) returns (ok: bool)
      modifies this`templates, this`campaigns
      ensures campaigns == RetargetedAll(old(campaigns), old(templates), m)
      ensures ok == !TemplatesPinned(campaigns, Doubles(old(templates), m))
      ensures ok ==> templates == MergedTemplates(old(templates), m)
    {
      campaigns := RetargetedAll(campaigns, templates, m);
      var gone := Doubles(templates, m);
      if TemplatesPinned(campaigns, gone) { return false; }
      templates := map i | i in templates && i !in gone :: templates[i];
      templates := map i | i in templates ::
        if templates[i].live && templates[i].product == m.drop then templates[i].(product := m.keep) else templates[i];
      ok := true;
    }

    method MergeUserProductAssignments(m: Merge)
      modifies this`assignments
      ensures assignments == MergedAssignments(old(assignments), m)
    {
      assignments := Undoubled(assignments, assignments, m);
      assignments := Moved(assignments, m);
    }

    /** False when a list cannot be mapped. */
    method MergeCampaignProductIds(m: Merge) returns (ok: bool)
      modifies this`campaigns
      ensures ok == !exists i :: 0 <= i < |old(campaigns)| && Throws(old(campaigns)[i], m)
      ensures ok ==> campaigns == RewrittenAll(old(campaigns), m)
    {
      for i := 0 to |campaigns|
        invariant |campaigns| == |old(campaigns)|
        invariant forall j :: 0 <= j < i ==>
                    campaigns[j] == Rewritten(old(campaigns)[j], m) && !Throws(old(campaigns)[j], m)
        invariant forall j :: i <= j < |campaigns| ==> campaigns[j] == old(campaigns)[j]
      {
        var c := campaigns[i];
        if c.live {
          match c.products
          case Absent =>
          case Garbled(_) =>
          case Scalar(about) =>
            if m.drop in about { assert Throws(old(campaigns)[i], m); return false; }
          case _ =>
            if m.drop in c.products.ids {
              campaigns := campaigns[i := c.(products := Listed(Distinct(Reps([m], c.products.ids))))];
            }
        }
      }
      ok := true;
    }

    /** Every listed table that is not handled on its own. */
    method RepointOthers(m: Merge, tables: seq<string>)
      requires NoRepeats(tables) && forall t :: t in refs <==> t in tables && t !in SKIP
      modifies this`refs
      ensures refs == MergedRefs(old(refs), m)
    {
      for i := 0 to |tables|
        invariant refs.Keys == old(refs).Keys
        invariant forall t :: t in refs ==>
                    refs[t] == if t in tables[..i] then Reps([m], old(refs)[t]) else old(refs)[t]
      {
        assert tables[..i + 1] == tables[..i] + [tables[i]];
        if tables[i] !in SKIP { RepointTableProductId(tables[i], m); }
      }
      assert tables[..|tables|] == tables;
    }

    method MergeOneDuplicate(m: Merge, tables: seq<string>) returns (ok: bool)
      requires NoRepeats(tables) && forall t :: t in refs <==> t in tables && t !in SKIP
      modifies this
      ensures ok == MergedOne(old(Snapshot()), m).Some?
      ensures ok ==> Snapshot() == MergedOne(old(Snapshot()), m).value && refs.Keys == old(refs).Keys
    {
      MergeInventoryLevels(m);
      RepointOthers(m, tables);
      ok := MergeOfferTemplates(m);
      if !ok { return; }
      MergeUserProductAssignments(m);
      RetargetingThrowsNot(old(campaigns), old(templates), m);
      ok := MergeCampaignProductIds(m);
      if !ok { return; }
      if m.drop in products && products[m.drop] {
        if Referenced(Snapshot(), m.drop) { return false; }
        products := products - {m.drop};
      }
    }

    /** All merges, or nothing. */
    method ApplyMerges(merges: seq<Merge>, tables: seq<string>) returns (ok: bool)
      requires NoRepeats(tables) && forall t :: t in refs <==> t in tables && t !in SKIP
      modifies this
      ensures ok == MergedAll(old(Snapshot()), merges).Some?
      ensures Snapshot() == if ok then MergedAll(old(Snapshot()), merges).value else old(Snapshot())
    {
      var start := Snapshot();
      for i := 0 to |merges|
        invariant refs.Keys == old(refs).Keys
        invariant MergedAll(start, merges) == MergedAll(Snapshot(), merges[i..])
      {
        assert merges[i..][0] == merges[i] && merges[i..][1..] == merges[i + 1..];
        ok := MergeOneDuplicate(merges[i], tables);
        if !ok {
          products, levels, refs, bundles := start.products, start.levels, start.refs, start.bundles;
          templates, assignments, campaigns := start.templates, start.assignments, start.campaigns;
          return;
        }
      }
      ok := true;
    }
  }
}
