/** The page registry: a flat list linked into a forest of shared nodes, and the pruning of that
    forest to what a user may see. */
module PageTree {
  import opened Common

  datatype Entry = Entry(key: string, title: string, parentKey: Option<string>,
                         permissionCode: Option<string>, roles: seq<string>)

  class PageTreeNode {
    const entry: Entry
    var children: seq<PageTreeNode>

    constructor (entry: Entry)
      ensures this.entry == entry && children == []
    {
      this.entry, children := entry, [];
    }
  }

  // ---- Linking ----------------------------------------------------------------------------

  function IndexOf(es: seq<Entry>, key: string): Option<nat> {
    if es == [] then None
    else if es[0].key == key then Some(0)
    else match IndexOf(es[1..], key) case None => None case Some(i) => Some(i + 1)
  }

  /** `map.set`: a known key keeps its place and gets the new value. */
  function Put(es: seq<Entry>, e: Entry): seq<Entry> {
    var at := IndexOf(es, e.key);
    if at.Some? then IndexOfIs(es, e.key); es[at.value := e] else es + [e]
  }

  function Latest(es: seq<Entry>): seq<Entry> {
    if es == [] then [] else Put(Latest(es[..|es| - 1]), es[|es| - 1])
  }

  predicate UniqueKeys(es: seq<Entry>) {
    forall i, j :: 0 <= i < j < |es| ==> es[i].key != es[j].key
  }

  lemma {:induction false} IndexOfIs(es: seq<Entry>, key: string)
    ensures match IndexOf(es, key)
            case Some(i) => i < |es| && es[i].key == key
            case None => forall k :: 0 <= k < |es| ==> es[k].key != key
  {
    if es != [] { IndexOfIs(es[1..], key); }
  }

  lemma PutIs(es: seq<Entry>, e: Entry)
    ensures match IndexOf(es, e.key)
            case Some(i) => i < |es| && es[i].key == e.key && Put(es, e) == es[i := e]
            case None => Put(es, e) == es + [e]
  {
    IndexOfIs(es, e.key);
  }

  lemma PutUnique(es: seq<Entry>, e: Entry)
    requires UniqueKeys(es)
    ensures UniqueKeys(Put(es, e))
  {
    PutIs(es, e);
    IndexOfIs(es, e.key);
  }

  lemma PutLast(front: seq<Entry>, last: Entry, es: seq<Entry>)
    requires es == front + [last] && UniqueKeys(es)
    ensures UniqueKeys(front) && Put(front, last) == es
  {
    assert es[|front|] == last && forall k :: 0 <= k < |front| ==> front[k] == es[k];
    IndexOfIs(front, last.key);
    PutIs(front, last);
  }

  lemma LatestNext(es: seq<Entry>, i: nat)
    requires i < |es|
    ensures Latest(es[..i + 1]) == Put(Latest(es[..i]), es[i])
  {
    assert es[..i + 1][..i] == es[..i];
  }

  lemma UniqueFront(front: seq<Entry>, last: Entry)
    requires UniqueKeys(front + [last])
    ensures UniqueKeys(front)
  {
    forall i | 0 <= i < |front| ensures (front + [last])[i] == front[i] {}
  }

  /** Keys are unique in the map. */
  lemma {:induction false} LatestUnique(es: seq<Entry>)
    ensures UniqueKeys(Latest(es))
  {
    if es != [] {
      LatestUnique(es[..|es| - 1]);
      PutUnique(Latest(es[..|es| - 1]), es[|es| - 1]);
    }
  }

  /** A list whose keys are unique is kept as it is. */
  lemma {:induction false} LatestSame(es: seq<Entry>)
    requires UniqueKeys(es)
    ensures Latest(es) == es
  {
    if es != [] {
      var front, last := es[..|es| - 1], es[|es| - 1];
      assert es == front + [last];
      UniqueFront(front, last);
      LatestSame(front);
      PutLast(front, last, es);
    }
  }

  predicate IsLast(es: seq<Entry>, i: nat) {
    i < |es| && forall j :: i < j < |es| ==> es[j].key != es[i].key
  }

  predicate IsFirst(es: seq<Entry>, i: nat) {
    i < |es| && forall j :: 0 <= j < i ==> es[j].key != es[i].key
  }

  /** The keys of the map stand in the order in which they first appear in the list. */
  ghost predicate InFirstOrder(es: seq<Entry>, kept: seq<Entry>, at: seq<nat>) {
    && |at| == |kept| && (forall i, j :: 0 <= i < j < |at| ==> at[i] < at[j])
    && (forall i :: 0 <= i < |at| ==> IsFirst(es, at[i]) && es[at[i]].key == kept[i].key)
  }

  lemma LastNext(es: seq<Entry>, e: Entry, i: nat)
    requires i < |es|
    ensures IsLast(es + [e], i) <==> IsLast(es, i) && e.key != es[i].key
  {
    assert (es + [e])[|es|] == e;
    forall j | 0 <= j < |es| ensures (es + [e])[j] == es[j] {}
  }

  /** The entry is the last of the list under its key. */
  predicate LastOfKey(es: seq<Entry>, e: Entry) {
    exists i :: 0 <= i < |es| && IsLast(es, i) && es[i] == e
  }

  /** The keys of the map are in the order of their first appearance. */
  lemma {:induction false} LatestInOrder(es: seq<Entry>) returns (at: seq<nat>)
    ensures InFirstOrder(es, Latest(es), at)
  {
    if es == [] {
      at := [];
    } else {
      var front, last := es[..|es| - 1], es[|es| - 1];
      at := LatestInOrder(front);
      assert es == front + [last];
      LatestOrder(front, last, Latest(front), at);
      if IndexOf(Latest(front), last.key).None? { at := at + [|front|]; }
    }
  }

  /** Of each key the map has the last entry, and nothing else. */
  lemma {:induction false} LatestIs(es: seq<Entry>, e: Entry)
    ensures e in Latest(es) <==> LastOfKey(es, e)
  {
    if es != [] {
      var front, last := es[..|es| - 1], es[|es| - 1];
      LatestIs(front, e);
      LatestHas(front, last, e);
      LastOfKeyNext(front, last, e);
      assert es == front + [last];
    }
  }

  lemma LatestHas(front: seq<Entry>, last: Entry, e: Entry)
    ensures e in Put(Latest(front), last) <==> e == last || (e in Latest(front) && e.key != last.key)
  {
    LatestUnique(front);
    PutHas(Latest(front), last, e);
  }

  lemma LastOfKeyNext(front: seq<Entry>, last: Entry, e: Entry)
    ensures LastOfKey(front + [last], e) <==> e == last || (LastOfKey(front, e) && e.key != last.key)
  {
    var es := front + [last];
    assert es[|front|] == last && IsLast(es, |front|);
    if i :| 0 <= i < |front| && IsLast(front, i) && front[i] == e {
      LastNext(front, last, i);
      assert es[i] == e;
    }
    if i :| 0 <= i < |es| && IsLast(es, i) && es[i] == e {
      if i < |front| {
        LastNext(front, last, i);
        assert front[i] == e;
      }
    }
  }

  predicate HasKey(es: seq<Entry>, key: string) {
    exists k :: 0 <= k < |es| && es[k].key == key
  }

  lemma PutKeys(es: seq<Entry>, e: Entry, key: string)
    ensures HasKey(Put(es, e), key) <==> key == e.key || HasKey(es, key)
  {
    PutIs(es, e);
    var at := IndexOf(es, e.key);
    assert Put(es, e)[if at.Some? then at.value else |es|] == e;
    if k :| 0 <= k < |es| && es[k].key == key { assert Put(es, e)[k].key == key; }
  }

  /** A key is in the map exactly if it is in the list. */
  lemma {:induction false} LatestKeys(es: seq<Entry>, key: string)
    ensures HasKey(Latest(es), key) <==> HasKey(es, key)
  {
    if es != [] {
      var front, last := es[..|es| - 1], es[|es| - 1];
      LatestKeys(front, key);
      PutKeys(Latest(front), last, key);
      assert es == front + [last];
      if HasKey(front, key) {
        var k :| 0 <= k < |front| && front[k].key == key;
        assert es[k].key == key;
      }
    }
  }

  lemma FirstNext(front: seq<Entry>, last: Entry, i: nat)
    requires if i < |front| then IsFirst(front, i) else i == |front| && !HasKey(front, last.key)
    ensures IsFirst(front + [last], i)
  {
    var es := front + [last];
    forall j | 0 <= j < |front| ensures es[j] == front[j] {}
  }

  /** A known key keeps its place, a new one comes last. */
  lemma LatestOrder(front: seq<Entry>, last: Entry, kept: seq<Entry>, at: seq<nat>)
    requires kept == Latest(front) && InFirstOrder(front, kept, at)
    ensures InFirstOrder(front + [last], Put(kept, last),
                         if IndexOf(kept, last.key).None? then at + [|front|] else at)
  {
    var es, known := front + [last], IndexOf(kept, last.key);
    var ends := if known.None? then at + [|front|] else at;
    PutIs(kept, last);
    LatestKeys(front, last.key);
    IndexOfIs(kept, last.key);
    forall i | 0 <= i < |ends| ensures IsFirst(es, ends[i]) && es[ends[i]].key == Put(kept, last)[i].key {
      if i < |at| { assert IsFirst(front, at[i]) && es[at[i]] == front[at[i]]; }
      FirstNext(front, last, ends[i]);
    }
    forall i, j | 0 <= i < j < |ends| ensures ends[i] < ends[j] {
      assert IsFirst(front, at[i]);
    }
  }

  lemma PutHas(es: seq<Entry>, e: Entry, x: Entry)
    requires UniqueKeys(es)
    ensures x in Put(es, e) <==> x == e || (x in es && x.key != e.key)
  {
    PutIs(es, e);
    IndexOfIs(es, e.key);
    var at, grown := IndexOf(es, e.key), Put(es, e);
    assert grown[if at.Some? then at.value else |es|] == e;
    if x in es && x.key != e.key {
      var k :| 0 <= k < |es| && es[k] == x;
      assert grown[k] == x;
    }
    if x in grown && x != e {
      var k :| 0 <= k < |grown| && grown[k] == x;
      assert es[k] == x;
    }
  }

  /** The entry's parent, if its key is given and known. */
  function Parent(es: seq<Entry>, j: nat): Option<nat>
    requires j < |es|
  {
    var p := es[j].parentKey;
    if p.Some? && p.value != "" then IndexOf(es, p.value) else None
  }

  /** An entry stands under the entry whose key it names; at the top if it names none, the empty one
      or an unknown one. */
  lemma ParentIs(es: seq<Entry>, j: nat)
    requires j < |es| && UniqueKeys(es)
    ensures Parent(es, j).Some? ==>
      Parent(es, j).value < |es| && es[j].parentKey == Some(es[Parent(es, j).value].key) && es[j].parentKey.value != ""
    ensures Parent(es, j).None? <==>
      forall i :: 0 <= i < |es| ==> es[j].parentKey != Some(es[i].key) || es[i].key == ""
  {
    if es[j].parentKey.Some? { IndexOfIs(es, es[j].parentKey.value); }
  }

  /** The first `n` entries under entry `i`, or at the top for none, in input order. */
  function Under(es: seq<Entry>, i: Option<nat>, n: nat): seq<nat>
    requires n <= |es|
  {
    if n == 0 then []
    else if Parent(es, n - 1) == i then Under(es, i, n - 1) + [n - 1]
    else Under(es, i, n - 1)
  }

  lemma {:induction false} UnderIs(es: seq<Entry>, i: Option<nat>, n: nat)
    requires n <= |es|
    ensures forall j: nat :: j in Under(es, i, n) <==> j < n && Parent(es, j) == i
    ensures forall a, b :: 0 <= a < b < |Under(es, i, n)| ==> Under(es, i, n)[a] < Under(es, i, n)[b]
  {
    if n != 0 {
      UnderIs(es, i, n - 1);
      var before := Under(es, i, n - 1);
      forall k | 0 <= k < |before| ensures before[k] < n - 1 { assert before[k] in before; }
    }
  }

  function At<T>(nodes: seq<T>, js: seq<nat>): seq<T>
    requires forall k :: 0 <= k < |js| ==> js[k] < |nodes|
  {
    seq(|js|, k requires 0 <= k < |js| => nodes[js[k]])
  }

  lemma UnderBelow(es: seq<Entry>, i: Option<nat>, n: nat)
    requires n <= |es|
    ensures forall k :: 0 <= k < |Under(es, i, n)| ==> Under(es, i, n)[k] < |es|
  {
    UnderIs(es, i, n);
    forall k | 0 <= k < |Under(es, i, n)| ensures Under(es, i, n)[k] < |es| {
      assert Under(es, i, n)[k] in Under(es, i, n);
    }
  }

  /** The nodes of the entries under `i`. */
  function Picked<T>(nodes: seq<T>, es: seq<Entry>, i: Option<nat>, n: nat): seq<T>
    requires n <= |es| == |nodes|
  {
    UnderBelow(es, i, n);
    At(nodes, Under(es, i, n))
  }

  lemma PickedNext<T>(nodes: seq<T>, es: seq<Entry>, i: Option<nat>, n: nat)
    requires n < |es| == |nodes|
    ensures Picked(nodes, es, i, n + 1)
         == if Parent(es, n) == i then Picked(nodes, es, i, n) + [nodes[n]] else Picked(nodes, es, i, n)
  {
    UnderBelow(es, i, n);
    UnderBelow(es, i, n + 1);
  }

  ghost predicate Nodes(nodes: seq<PageTreeNode>, es: seq<Entry>) {
    |nodes| == |es| && NoRepeats(nodes) && forall i :: 0 <= i < |es| ==> nodes[i].entry == es[i]
  }

  ghost predicate Childless(nodes: seq<PageTreeNode>)
    reads nodes
  {
    forall k :: 0 <= k < |nodes| ==> nodes[k].children == []
  }

  ghost predicate Linked(nodes: seq<PageTreeNode>, es: seq<Entry>, n: nat)
    requires n <= |es| == |nodes|
    reads nodes
  {
    forall i :: 0 <= i < |es| ==> nodes[i].children == Picked(nodes, es, Some(i), n)
  }

  /** `map.set(entry.key, { ...entry, children: [] })`. */
  method SetNode(nodes: seq<PageTreeNode>, es: seq<Entry>, e: Entry) returns (grown: seq<PageTreeNode>)
    requires Nodes(nodes, es) && Childless(nodes)
    ensures Nodes(grown, Put(es, e)) && Childless(grown)
    ensures forall k :: 0 <= k < |grown| ==> grown[k] in nodes || fresh(grown[k])
  {
    PutIs(es, e);
    var node := new PageTreeNode(e);
    var at := IndexOf(es, e.key);
    grown := if at.Some? then nodes[at.value := node] else nodes + [node];
  }

  /** The map of nodes, in the order in which their keys were first set. */
  method MakeNodes(entries: seq<Entry>) returns (nodes: seq<PageTreeNode>, es: seq<Entry>)
    ensures es == Latest(entries) && Nodes(nodes, es) && fresh(nodes)
    ensures Childless(nodes)
  {
    nodes, es := [], [];
    for i := 0 to |entries|
      invariant es == Latest(entries[..i]) && Nodes(nodes, es) && fresh(nodes)
      invariant Childless(nodes)
    {
      LatestNext(entries, i);
      var grown := SetNode(nodes, es, entries[i]);
      assert forall k :: 0 <= k < |grown| ==> fresh(grown[k]);
      nodes := grown;
      es := Put(es, entries[i]);
    }
    assert entries[..|entries|] == entries;
  }

  lemma Found(es: seq<Entry>, j: nat)
    requires j < |es| && Parent(es, j).Some?
    ensures Parent(es, j).value < |es|
  {
    IndexOfIs(es, es[j].parentKey.value);
  }

  /** The first `n` nodes hang under their parents or among the roots. */
  ghost predicate Placed(nodes: seq<PageTreeNode>, es: seq<Entry>, n: nat, roots: seq<PageTreeNode>)
    reads nodes
  {
    Nodes(nodes, es) && n <= |es| && Linked(nodes, es, n) && roots == Picked(nodes, es, None, n)
  }

  /** The children of entry `i`, before and after node `j` is placed. */
  lemma PlacedNext(nodes: seq<PageTreeNode>, es: seq<Entry>, j: nat, i: nat,
                   was: seq<PageTreeNode>, now: seq<PageTreeNode>)
    requires j < |es| == |nodes| && was == Picked(nodes, es, Some(i), j)
    requires now == if Parent(es, j) == Some(i) then was + [nodes[j]] else was
    ensures now == Picked(nodes, es, Some(i), j + 1)
  {
    PickedNext(nodes, es, Some(i), j);
  }

  /** Node `j` is pushed to its parent's children, or to the roots. */
  method Attach(nodes: seq<PageTreeNode>, es: seq<Entry>, j: nat, roots: seq<PageTreeNode>)
    returns (grown: seq<PageTreeNode>)
    requires j < |es| && Placed(nodes, es, j, roots)
    modifies nodes
    ensures Placed(nodes, es, j + 1, grown)
  {
    ghost var was := seq(|nodes|, i requires 0 <= i < |nodes| reads nodes => nodes[i].children);
    var p := es[j].parentKey;
    var at := if p.Some? && p.value != "" then IndexOf(es, p.value) else None;
    if at.Some? {
      Found(es, j);
      var parent := nodes[at.value];
      parent.children := parent.children + [nodes[j]];
      grown := roots;
    } else {
      grown := roots + [nodes[j]];
    }
    PickedNext(nodes, es, None, j);
    forall i | 0 <= i < |es| ensures nodes[i].children == Picked(nodes, es, Some(i), j + 1) {
      assert nodes[i].children == if at == Some(i) then was[i] + [nodes[j]] else was[i];
      PlacedNext(nodes, es, j, i, was[i], nodes[i].children);
    }
  }

  lemma NothingLinked(nodes: seq<PageTreeNode>, es: seq<Entry>)
    requires Nodes(nodes, es) && Childless(nodes)
    ensures Placed(nodes, es, 0, [])
  {
  }

  method BuildPageTree(entries: seq<Entry>) returns (nodes: seq<PageTreeNode>, roots: seq<PageTreeNode>)
    ensures Nodes(nodes, Latest(entries)) && fresh(nodes)
    ensures Placed(nodes, Latest(entries), |nodes|, roots)
  {
    var es;
    nodes, es := MakeNodes(entries);
    roots := [];
    NothingLinked(nodes, es);
    for j := 0 to |nodes|
      invariant Placed(nodes, es, j, roots)
    {
      roots := Attach(nodes, es, j, roots);
    }
  }

  // ---- What is shown ----------------------------------------------------------------------

  /** Entry `j` stands under `i`, or at the top. */
  predicate Stands(es: seq<Entry>, i: Option<nat>, j: nat) {
    j < |es| && Parent(es, j) == i
  }

  /** A way from the top to an entry along children. */
  predicate Path(es: seq<Entry>, path: seq<nat>)
    decreases |path|
  {
    && path != []
    && if |path| == 1 then Stands(es, None, path[0])
       else Stands(es, Some(path[|path| - 2]), path[|path| - 1]) && Path(es, path[..|path| - 1])
  }

  predicate Leads(es: seq<Entry>, path: seq<nat>, j: nat) {
    Path(es, path) && path[|path| - 1] == j
  }

  ghost predicate Shown(es: seq<Entry>, j: nat) {
    exists path :: Leads(es, path, j)
  }

  /** Following parents reaches a top entry within `n` steps. */
  predicate Ends(es: seq<Entry>, j: nat, n: nat)
    requires j < |es|
    decreases n
  {
    match Parent(es, j)
    case None => true
    case Some(p) => n > 0 && p < |es| && Ends(es, p, n - 1)
  }

  /** No entry is shown twice. */
  lemma {:induction false} PathUnique(es: seq<Entry>, a: seq<nat>, b: seq<nat>, j: nat)
    requires Leads(es, a, j) && Leads(es, b, j)
    ensures a == b
    decreases |a|
  {
    assert a == a[..|a| - 1] + [j] && b == b[..|b| - 1] + [j];
    if |a| > 1 && |b| > 1 {
      PathUnique(es, a[..|a| - 1], b[..|b| - 1], a[|a| - 2]);
    }
  }

  lemma LeadsOn(es: seq<Entry>, path: seq<nat>, p: nat, j: nat)
    requires Leads(es, path, p) && Stands(es, Some(p), j)
    ensures Leads(es, path + [j], j)
  {
    var on := path + [j];
    assert on[..|on| - 1] == path && on[|on| - 2] == p;
  }

  lemma {:induction false} EndsIsShown(es: seq<Entry>, j: nat, n: nat)
    requires j < |es| && Ends(es, j, n)
    ensures Shown(es, j)
    decreases n
  {
    if Parent(es, j).None? {
      assert Leads(es, [j], j);
    } else {
      var p := Parent(es, j).value;
      EndsIsShown(es, p, n - 1);
      var path :| Leads(es, path, p);
      LeadsOn(es, path, p, j);
    }
  }

  lemma {:induction false} PathEnds(es: seq<Entry>, path: seq<nat>, j: nat)
    requires Leads(es, path, j)
    ensures j < |es| && Ends(es, j, |path| - 1)
    decreases |path|
  {
    if |path| > 1 { PathEnds(es, path[..|path| - 1], path[|path| - 2]); }
  }

  /** The entry's parents lead to the top. */
  ghost predicate Grounded(es: seq<Entry>, j: nat)
    requires j < |es|
  {
    exists n: nat :: Ends(es, j, n)
  }

  /** An entry is shown exactly if its parents lead to the top, so those on or below a cycle of
      parents vanish; and then it is shown once. */
  lemma ShownIff(es: seq<Entry>, j: nat)
    requires j < |es|
    ensures Shown(es, j) <==> Grounded(es, j)
    ensures forall a, b :: Leads(es, a, j) && Leads(es, b, j) ==> a == b
  {
    if Grounded(es, j) {
      var n: nat :| Ends(es, j, n);
      EndsIsShown(es, j, n);
    }
    if Shown(es, j) {
      var path :| Leads(es, path, j);
      PathEnds(es, path, j);
    }
    forall a, b | Leads(es, a, j) && Leads(es, b, j) ensures a == b { PathUnique(es, a, b, j); }
  }

  /** Parents that never lead back: each has a smaller rank than its children. */
  predicate Acyclic(es: seq<Entry>, rank: seq<nat>) {
    |rank| == |es|
    && forall j :: 0 <= j < |es| && Parent(es, j).Some? ==>
                     Parent(es, j).value < |es| && rank[Parent(es, j).value] < rank[j]
  }

  lemma {:induction false} AcyclicEnds(es: seq<Entry>, rank: seq<nat>, j: nat)
    requires Acyclic(es, rank) && j < |es|
    ensures Ends(es, j, rank[j])
    decreases rank[j]
  {
    if Parent(es, j).Some? {
      var p := Parent(es, j).value;
      AcyclicEnds(es, rank, p);
      EndsLonger(es, p, rank[p], rank[j] - 1);
    }
  }

  lemma {:induction false} EndsLonger(es: seq<Entry>, j: nat, n: nat, m: nat)
    requires j < |es| && Ends(es, j, n) && n <= m
    ensures Ends(es, j, m)
    decreases n
  {
    if Parent(es, j).Some? { EndsLonger(es, Parent(es, j).value, n - 1, m - 1); }
  }

  /** With unique keys and acyclic parents every entry is shown exactly once. */
  lemma AllShownOnce(es: seq<Entry>, rank: seq<nat>, j: nat)
    requires UniqueKeys(es) && Acyclic(es, rank) && j < |es|
    ensures Latest(es) == es && Shown(es, j)
    ensures forall a, b :: Leads(es, a, j) && Leads(es, b, j) ==> a == b
  {
    LatestSame(es);
    AcyclicEnds(es, rank, j);
    EndsIsShown(es, j, rank[j]);
    forall a, b | Leads(es, a, j) && Leads(es, b, j) ensures a == b { PathUnique(es, a, b, j); }
  }

  // ---- Pruning ----------------------------------------------------------------------------

  /** A finished forest, by value. */
  datatype Node = Node(entry: Entry, children: seq<Node>)

  function Peak(rank: seq<nat>): nat {
    if rank == [] then 0 else if rank[0] > Peak(rank[1..]) then rank[0] else Peak(rank[1..])
  }

  lemma {:induction false} PeakIs(rank: seq<nat>, i: nat)
    requires i < |rank|
    ensures rank[i] <= Peak(rank)
  {
    if i > 0 { PeakIs(rank[1..], i - 1); }
  }

  lemma ChildrenRankHigher(es: seq<Entry>, rank: seq<nat>, i: nat, k: nat)
    requires Acyclic(es, rank) && i < |es| && k < |Under(es, Some(i), |es|)|
    ensures var j := Under(es, Some(i), |es|)[k]; j < |es| && rank[i] < rank[j] <= Peak(rank)
  {
    UnderIs(es, Some(i), |es|);
    var j := Under(es, Some(i), |es|)[k];
    assert j in Under(es, Some(i), |es|);
    PeakIs(rank, j);
  }

  /** The finished tree at an entry. */
  function Subtree(es: seq<Entry>, rank: seq<nat>, i: nat): Node
    requires Acyclic(es, rank) && i < |es|
    decreases Peak(rank) - rank[i]
  {
    var js := Under(es, Some(i), |es|);
    assert forall k :: 0 <= k < |js| ==> js[k] < |es| && rank[i] < rank[js[k]] <= Peak(rank) by {
      forall k | 0 <= k < |js| ensures js[k] < |es| && rank[i] < rank[js[k]] <= Peak(rank) {
        ChildrenRankHigher(es, rank, i, k);
      }
    }
    Node(es[i], seq(|js|, k requires 0 <= k < |js| => Subtree(es, rank, js[k])))
  }

  ghost predicate Mirrors(n: PageTreeNode, t: Node)
    reads *
    decreases t
  {
    && n.entry == t.entry && |n.children| == |t.children|
    && forall k :: 0 <= k < |t.children| ==> Mirrors(n.children[k], t.children[k])
  }

  /** The linked nodes are that tree. */
  lemma {:induction false} LinkedIsTree(nodes: seq<PageTreeNode>, es: seq<Entry>, rank: seq<nat>, i: nat)
    requires Nodes(nodes, es) && Linked(nodes, es, |es|) && Acyclic(es, rank) && i < |es|
    ensures Mirrors(nodes[i], Subtree(es, rank, i))
    decreases if i < |rank| then Peak(rank) - rank[i] else 0
  {
    var js := Under(es, Some(i), |es|);
    var t := Subtree(es, rank, i);
    forall k | 0 <= k < |t.children| ensures Mirrors(nodes[i].children[k], t.children[k]) {
      ChildrenRankHigher(es, rank, i, k);
      LinkedIsTree(nodes, es, rank, js[k]);
    }
  }

  datatype Viewer = Viewer(permissions: set<string>, role: string)

  predicate Bypass(v: Viewer) {
    v.role == "SUPER_ADMIN" || v.role == "SUPPORT" || v.role == "ADMIN"
  }

  predicate HasAccess(e: Entry, v: Viewer) {
    || Bypass(v)
    || e.permissionCode.None? || e.permissionCode.value == ""
    || e.permissionCode.value in v.permissions
    || v.role in e.roles
  }

  function FilterNode(n: Node, v: Viewer): Option<Node>
    decreases n
  {
    var children := FilterPageTree(n.children, v);
    if !HasAccess(n.entry, v) && children == [] then None else Some(Node(n.entry, children))
  }

  function FilterPageTree(ns: seq<Node>, v: Viewer): seq<Node>
    decreases ns
  {
    if ns == [] then []
    else
      var rest := FilterPageTree(ns[1..], v);
      match FilterNode(ns[0], v) case None => rest case Some(n) => [n] + rest
  }

  /** The node or something below it is accessible. */
  predicate Wanted(n: Node, v: Viewer)
    decreases n
  {
    HasAccess(n.entry, v) || AnyWanted(n.children, v)
  }

  predicate AnyWanted(ns: seq<Node>, v: Viewer)
    decreases ns
  {
    ns != [] && (Wanted(ns[0], v) || AnyWanted(ns[1..], v))
  }

  /** Every node, parents before children. */
  function Preorder(ns: seq<Node>): seq<Node>
    decreases ns
  {
    if ns == [] then [] else [ns[0]] + Preorder(ns[0].children) + Preorder(ns[1..])
  }

  function Entries(ns: seq<Node>): seq<Entry> {
    if ns == [] then [] else [ns[0].entry] + Entries(ns[1..])
  }

  function WantedOnly(ns: seq<Node>, v: Viewer): seq<Node> {
    if ns == [] then []
    else if Wanted(ns[0], v) then [ns[0]] + WantedOnly(ns[1..], v)
    else WantedOnly(ns[1..], v)
  }

  lemma {:induction false} EmptyIff(ns: seq<Node>, v: Viewer)
    ensures FilterPageTree(ns, v) == [] <==> !AnyWanted(ns, v)
    decreases ns
  {
    if ns != [] {
      KeptIff(ns[0], v);
      EmptyIff(ns[1..], v);
    }
  }

  lemma {:induction false} KeptIff(n: Node, v: Viewer)
    ensures FilterNode(n, v).Some? <==> Wanted(n, v)
    decreases n
  {
    EmptyIff(n.children, v);
  }

  lemma {:induction false} EntriesConcat(a: seq<Node>, b: seq<Node>)
    ensures Entries(a + b) == Entries(a) + Entries(b)
  {
    if a == [] { assert a + b == b; }
    else {
      assert (a + b)[1..] == a[1..] + b;
      EntriesConcat(a[1..], b);
    }
  }

  lemma {:induction false} WantedConcat(a: seq<Node>, b: seq<Node>, v: Viewer)
    ensures WantedOnly(a + b, v) == WantedOnly(a, v) + WantedOnly(b, v)
  {
    if a == [] { assert a + b == b; }
    else {
      assert (a + b)[1..] == a[1..] + b;
      WantedConcat(a[1..], b, v);
    }
  }

  lemma {:induction false} NoneWanted(ns: seq<Node>, v: Viewer)
    requires !AnyWanted(ns, v)
    ensures WantedOnly(Preorder(ns), v) == []
    decreases ns
  {
    if ns != [] {
      NoneWanted(ns[0].children, v);
      NoneWanted(ns[1..], v);
      WantedConcat([ns[0]] + Preorder(ns[0].children), Preorder(ns[1..]), v);
      WantedConcat([ns[0]], Preorder(ns[0].children), v);
    }
  }

  /** The filtered forest has, in the same order, exactly the nodes that are accessible or have
      something accessible below. */
  lemma {:induction false} KeepsExactly(ns: seq<Node>, v: Viewer)
    ensures Entries(Preorder(FilterPageTree(ns, v))) == Entries(WantedOnly(Preorder(ns), v))
    decreases ns
  {
    if ns != [] {
      var n, kids := ns[0], ns[0].children;
      var below, rest := WantedOnly(Preorder(kids), v), WantedOnly(Preorder(ns[1..]), v);
      KeepsExactly(ns[1..], v);
      KeptIff(n, v);
      WantedConcat([n] + Preorder(kids), Preorder(ns[1..]), v);
      WantedConcat([n], Preorder(kids), v);
      if Wanted(n, v) {
        KeepsExactly(kids, v);
        var m := FilterNode(n, v).value;
        var tail := FilterPageTree(ns[1..], v);
        assert ([m] + tail)[1..] == tail;
        PreorderEntries(m, tail);
        EntriesConcat([n] + below, rest);
        EntriesConcat([n], below);
        assert [n][1..] == [];
        assert WantedOnly([n], v) == [n];
      } else {
        NoneWanted(kids, v);
        assert [n][1..] == [];
        assert WantedOnly([n], v) == [];
        assert WantedOnly(Preorder(ns), v) == [] + [] + rest;
        assert WantedOnly(Preorder(ns), v) == rest;
      }
    }
  }

  lemma PreorderEntries(n: Node, rest: seq<Node>)
    ensures Entries(Preorder([n] + rest)) == [n.entry] + Entries(Preorder(n.children)) + Entries(Preorder(rest))
  {
    assert ([n] + rest)[1..] == rest;
    EntriesConcat([n] + Preorder(n.children), Preorder(rest));
    EntriesConcat([n], Preorder(n.children));
    assert [n][1..] == [];
  }

  /** Pruning for someone who sees no more after pruning for someone who sees more. */
  lemma {:induction false} PruneTwice(ns: seq<Node>, v: Viewer, w: Viewer)
    requires forall e :: HasAccess(e, v) ==> HasAccess(e, w)
    ensures FilterPageTree(FilterPageTree(ns, w), v) == FilterPageTree(ns, v)
    decreases ns
  {
    if ns != [] {
      var n := ns[0];
      PruneTwice(n.children, v, w);
      PruneTwice(ns[1..], v, w);
      var rest := FilterPageTree(ns[1..], w);
      if FilterNode(n, w).Some? {
        var m := FilterNode(n, w).value;
        assert ([m] + rest)[1..] == rest;
        assert FilterNode(m, v) == FilterNode(n, v);
      } else {
        assert FilterPageTree([], v) == [];
      }
    }
  }

  /** Pruning is idempotent, and granting permissions only adds: the smaller view is the larger
      one pruned. */
  lemma Monotone(ns: seq<Node>, v: Viewer, more: set<string>)
    ensures FilterPageTree(FilterPageTree(ns, v), v) == FilterPageTree(ns, v)
    ensures var w := v.(permissions := v.permissions + more);
            FilterPageTree(FilterPageTree(ns, w), v) == FilterPageTree(ns, v)
  {
    PruneTwice(ns, v, v);
    PruneTwice(ns, v, v.(permissions := v.permissions + more));
  }

  /** The three bypass roles see the forest as it is. */
  lemma {:induction false} BypassSeesAll(ns: seq<Node>, v: Viewer)
    requires Bypass(v)
    ensures FilterPageTree(ns, v) == ns
    decreases ns
  {
    if ns != [] {
      BypassSeesAll(ns[0].children, v);
      BypassSeesAll(ns[1..], v);
    }
  }

  /** A page without sub-pages is kept exactly for the three bypass roles, for everyone if it asks
      for no permission, for whoever has the one it asks for, and for the roles it lists. */
  lemma LeafKeptIff(e: Entry, v: Viewer)
    ensures FilterPageTree([Node(e, [])], v) == [Node(e, [])]
       <==> || v.role in {"SUPER_ADMIN", "SUPPORT", "ADMIN"}
            || e.permissionCode.None? || e.permissionCode.value == "" || e.permissionCode.value in v.permissions
            || exists i :: 0 <= i < |e.roles| && e.roles[i] == v.role
    ensures FilterPageTree([Node(e, [])], v) != [Node(e, [])] ==> FilterPageTree([Node(e, [])], v) == []
  {
    var ns := [Node(e, [])];
    assert ns[1..] == [] && FilterPageTree(ns[1..], v) == [];
    assert FilterNode(ns[0], v) == if HasAccess(e, v) then Some(Node(e, [])) else None;
  }
}
