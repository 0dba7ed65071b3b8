/** Merging one duplicate product's inventory rows into the kept product: three statements over
    a table with one row per (product, location). */
module ProductInventory {
  import opened Common

  /** Ids are compared by the database, so only their order matters. */
  type Id = nat

  datatype Level = Level(product: Id, location: Id, stock: int, reserved: int)
  datatype Merge = Merge(keep: Id, drop: Id)

  function Sub(m: Merge, x: Id): Id {
    if x == m.drop then m.keep else x
  }

  /** Where a product's references end up after a list of merges. */
  function Rep(ms: seq<Merge>, x: Id): Id {
    if ms == [] then x else Rep(ms[1..], Sub(ms[0], x))
  }

  function Is(p: Id): iset<Id> {
    iset{p}
  }

  /** The products that a merge sends into the set. */
  ghost function Via(g: iset<Id>, m: Merge): iset<Id> {
    iset x: Id | Sub(m, x) in g
  }

  function Reps(ms: seq<Merge>, ids: seq<Id>): seq<Id> {
    seq(|ids|, i requires 0 <= i < |ids| => Rep(ms, ids[i]))
  }

  // ---- Inventory --------------------------------------------------------------------------

  /** The row that an update joined on (product, location) reads. */
  function Match(rows: seq<Level>, p: Id, l: Id): Option<Level> {
    if rows == [] then None
    else if rows[0].product == p && rows[0].location == l then Some(rows[0])
    else Match(rows[1..], p, l)
  }

  function Topped(r: Level, all: seq<Level>, m: Merge): Level {
    var d := Match(all, m.drop, r.location);
    if r.product == m.keep && d.Some?
    then r.(stock := r.stock + d.value.stock, reserved := r.reserved + d.value.reserved) else r
  }

  predicate Doubled(r: Level, all: seq<Level>, m: Merge) {
    r.product == m.drop && Match(all, m.keep, r.location).Some?
  }

  function Absorbed(rows: seq<Level>, all: seq<Level>, m: Merge): seq<Level> {
    if rows == [] then []
    else [Topped(rows[0], all, m)] + Absorbed(rows[1..], all, m)
  }

  function Remaining(rows: seq<Level>, all: seq<Level>, m: Merge): seq<Level> {
    if rows == [] then []
    else if Doubled(rows[0], all, m) then Remaining(rows[1..], all, m)
    else [rows[0]] + Remaining(rows[1..], all, m)
  }

  function Repointed(rows: seq<Level>, m: Merge): seq<Level> {
    if rows == [] then [] else [rows[0].(product := Sub(m, rows[0].product))] + Repointed(rows[1..], m)
  }

  function MergedLevels(rows: seq<Level>, m: Merge): seq<Level> {
    var absorbed := Absorbed(rows, rows, m);
    Repointed(Remaining(absorbed, absorbed, m), m)
  }

  predicate Unique(rows: seq<Level>) {
    rows != [] ==> Match(rows[1..], rows[0].product, rows[0].location).None? && Unique(rows[1..])
  }

  datatype Units = Units(stock: int, reserved: int)

  function Plus(a: Units, b: Units): Units {
    Units(a.stock + b.stock, a.reserved + b.reserved)
  }

  lemma PlusLaws(a: Units, b: Units, c: Units)
    ensures Plus(a, b) == Plus(b, a)
    ensures Plus(Plus(a, b), c) == Plus(a, Plus(b, c))
    ensures Plus(a, c) == Plus(b, c) ==> a == b
    ensures Plus(a, Units(0, 0)) == a
  {
  }

  function Amount(r: Level): Units {
    Units(r.stock, r.reserved)
  }

  /** What a set of products has at one location. */
  function Sum(rows: seq<Level>, g: iset<Id>, l: Id): Units {
    if rows == [] then Units(0, 0)
    else if rows[0].location == l && rows[0].product in g then Plus(Amount(rows[0]), Sum(rows[1..], g, l))
    else Sum(rows[1..], g, l)
  }

  /** Some product of the set has a row at the location. */
  ghost predicate Stocked(rows: seq<Level>, g: iset<Id>, l: Id) {
    exists r :: r in rows && r.location == l && r.product in g
  }

  function Matched(rows: seq<Level>, p: Id, l: Id): Units {
    if Match(rows, p, l).Some? then Amount(Match(rows, p, l).value) else Units(0, 0)
  }

  lemma SumCons(r: Level, rows: seq<Level>, g: iset<Id>, l: Id)
    ensures Sum([r] + rows, g, l)
         == if r.location == l && r.product in g then Plus(Amount(r), Sum(rows, g, l)) else Sum(rows, g, l)
  {
    assert ([r] + rows)[1..] == rows;
  }

  lemma MatchCons(r: Level, rows: seq<Level>, p: Id, l: Id)
    ensures Match([r] + rows, p, l) == if r.product == p && r.location == l then Some(r) else Match(rows, p, l)
  {
    assert ([r] + rows)[1..] == rows;
  }

  lemma UniqueCons(r: Level, rows: seq<Level>)
    ensures Unique([r] + rows) <==> Match(rows, r.product, r.location).None? && Unique(rows)
  {
    assert ([r] + rows)[1..] == rows;
  }

  lemma {:induction false} MatchIsStocked(rows: seq<Level>, p: Id, l: Id)
    ensures Match(rows, p, l).Some? <==> Stocked(rows, Is(p), l)
  {
    if rows != [] {
      MatchIsStocked(rows[1..], p, l);
      assert rows == [rows[0]] + rows[1..];
    }
  }

  lemma {:induction false} SumOfNone(rows: seq<Level>, p: Id, l: Id)
    requires Match(rows, p, l).None?
    ensures Sum(rows, Is(p), l) == Units(0, 0)
  {
    if rows != [] { SumOfNone(rows[1..], p, l); }
  }

  lemma {:induction false} SumOfOne(rows: seq<Level>, p: Id, l: Id)
    requires Unique(rows)
    ensures Sum(rows, Is(p), l) == Matched(rows, p, l)
  {
    if rows != [] {
      if rows[0].product == p && rows[0].location == l { SumOfNone(rows[1..], p, l); }
      else { SumOfOne(rows[1..], p, l); }
    }
  }

  lemma {:induction false} AbsorbedMatch(rows: seq<Level>, all: seq<Level>, m: Merge, p: Id, l: Id)
    ensures Match(Absorbed(rows, all, m), p, l).Some? <==> Match(rows, p, l).Some?
    ensures p != m.keep ==> Match(Absorbed(rows, all, m), p, l) == Match(rows, p, l)
  {
    if rows != [] {
      AbsorbedMatch(rows[1..], all, m, p, l);
      MatchCons(Topped(rows[0], all, m), Absorbed(rows[1..], all, m), p, l);
    }
  }

  lemma {:induction false} AbsorbedUnique(rows: seq<Level>, all: seq<Level>, m: Merge)
    requires Unique(rows)
    ensures Unique(Absorbed(rows, all, m))
  {
    if rows != [] {
      AbsorbedUnique(rows[1..], all, m);
      AbsorbedMatch(rows[1..], all, m, rows[0].product, rows[0].location);
      UniqueCons(Topped(rows[0], all, m), Absorbed(rows[1..], all, m));
    }
  }

  /** What the keep row at a location is topped up by, if there is one and it belongs to the set. */
  function TopUp(rows: seq<Level>, all: seq<Level>, m: Merge, g: iset<Id>, l: Id): Units {
    if m.keep in g && Match(rows, m.keep, l).Some? then Matched(all, m.drop, l) else Units(0, 0)
  }

  lemma TopUpCons(rows: seq<Level>, all: seq<Level>, m: Merge, g: iset<Id>, l: Id)
    requires rows != [] && Unique(rows)
    ensures TopUp(rows, all, m, g, l)
         == if m.keep in g && rows[0].product == m.keep && rows[0].location == l then Matched(all, m.drop, l)
            else TopUp(rows[1..], all, m, g, l)
    ensures rows[0].product == m.keep && rows[0].location == l ==> TopUp(rows[1..], all, m, g, l) == Units(0, 0)
  {
  }

  lemma ToppedAmount(r: Level, all: seq<Level>, m: Merge)
    ensures Topped(r, all, m).product == r.product && Topped(r, all, m).location == r.location
    ensures Amount(Topped(r, all, m))
         == if r.product == m.keep then Plus(Amount(r), Matched(all, m.drop, r.location)) else Amount(r)
  {
  }

  lemma {:induction false} AbsorbedSum(rows: seq<Level>, all: seq<Level>, m: Merge, g: iset<Id>, l: Id)
    requires Unique(rows)
    ensures Sum(Absorbed(rows, all, m), g, l) == Plus(Sum(rows, g, l), TopUp(rows, all, m, g, l))
  {
    if rows != [] {
      var r, t := rows[0], Topped(rows[0], all, m);
      AbsorbedSum(rows[1..], all, m, g, l);
      SumCons(t, Absorbed(rows[1..], all, m), g, l);
      TopUpCons(rows, all, m, g, l);
      ToppedAmount(r, all, m);
    }
  }

  lemma {:induction false} RemainingMatch(rows: seq<Level>, all: seq<Level>, m: Merge, p: Id, l: Id)
    ensures Match(Remaining(rows, all, m), p, l)
         == if p == m.drop && Match(all, m.keep, l).Some? then None else Match(rows, p, l)
  {
    if rows != [] {
      RemainingMatch(rows[1..], all, m, p, l);
      MatchCons(rows[0], Remaining(rows[1..], all, m), p, l);
    }
  }

  lemma {:induction false} RemainingUnique(rows: seq<Level>, all: seq<Level>, m: Merge)
    requires Unique(rows)
    ensures Unique(Remaining(rows, all, m))
  {
    if rows != [] {
      RemainingUnique(rows[1..], all, m);
      RemainingMatch(rows[1..], all, m, rows[0].product, rows[0].location);
      UniqueCons(rows[0], Remaining(rows[1..], all, m));
    }
  }

  /** What the deleted drop rows at a location held for the set. */
  function Removed(rows: seq<Level>, all: seq<Level>, m: Merge, g: iset<Id>, l: Id): Units {
    if m.drop in g && Match(all, m.keep, l).Some? then Sum(rows, Is(m.drop), l) else Units(0, 0)
  }

  lemma RemovedCons(rows: seq<Level>, all: seq<Level>, m: Merge, g: iset<Id>, l: Id)
    requires rows != []
    ensures Removed(rows, all, m, g, l)
         == if m.drop in g && rows[0].location == l && Doubled(rows[0], all, m)
            then Plus(Amount(rows[0]), Removed(rows[1..], all, m, g, l)) else Removed(rows[1..], all, m, g, l)
  {
  }

  lemma SumHead(rows: seq<Level>, g: iset<Id>, l: Id)
    requires rows != []
    ensures Sum(rows, g, l)
         == if rows[0].location == l && rows[0].product in g then Plus(Amount(rows[0]), Sum(rows[1..], g, l))
            else Sum(rows[1..], g, l)
  {
  }

  lemma {:induction false} RemainingSum(rows: seq<Level>, all: seq<Level>, m: Merge, g: iset<Id>, l: Id)
    ensures Sum(rows, g, l) == Plus(Sum(Remaining(rows, all, m), g, l), Removed(rows, all, m, g, l))
  {
    if rows != [] {
      var r, rest := rows[0], Remaining(rows[1..], all, m);
      RemainingSum(rows[1..], all, m, g, l);
      SumHead(rows, g, l);
      RemovedCons(rows, all, m, g, l);
      if Doubled(r, all, m) {
        assert Remaining(rows, all, m) == rest;
        PlusLaws(Amount(r), Sum(rest, g, l), Removed(rows[1..], all, m, g, l));
        PlusLaws(Sum(rest, g, l), Amount(r), Removed(rows[1..], all, m, g, l));
      } else {
        assert Remaining(rows, all, m) == [r] + rest;
        SumCons(r, rest, g, l);
        PlusLaws(Amount(r), Sum(rest, g, l), Removed(rows[1..], all, m, g, l));
      }
    }
  }

  lemma {:induction false} RepointedMatch(rows: seq<Level>, m: Merge, p: Id, l: Id)
    requires m.keep != m.drop
    ensures Match(Repointed(rows, m), p, l).Some?
       <==> (p != m.drop && Match(rows, p, l).Some?) || (p == m.keep && Match(rows, m.drop, l).Some?)
  {
    if rows != [] {
      RepointedMatch(rows[1..], m, p, l);
      MatchCons(rows[0].(product := Sub(m, rows[0].product)), Repointed(rows[1..], m), p, l);
    }
  }

  lemma {:induction false} RepointedUnique(rows: seq<Level>, m: Merge)
    requires m.keep != m.drop && Unique(rows)
    requires forall l :: Match(rows, m.keep, l).None? || Match(rows, m.drop, l).None?
    ensures Unique(Repointed(rows, m))
  {
    if rows != [] {
      var r := rows[0];
      forall l ensures Match(rows[1..], m.keep, l).None? || Match(rows[1..], m.drop, l).None? {
        assert Match(rows, m.keep, l).None? ==> Match(rows[1..], m.keep, l).None?;
        assert Match(rows, m.drop, l).None? ==> Match(rows[1..], m.drop, l).None?;
      }
      RepointedUnique(rows[1..], m);
      assert Match(rows, r.product, r.location) == Some(r);
      UniqueCons(r.(product := Sub(m, r.product)), Repointed(rows[1..], m));
      RepointedMatch(rows[1..], m, Sub(m, r.product), r.location);
      assert Match(rows, m.keep, r.location).None? || Match(rows, m.drop, r.location).None?;
    }
  }

  lemma {:induction false} RepointedSum(rows: seq<Level>, m: Merge, g: iset<Id>, l: Id)
    ensures Sum(Repointed(rows, m), g, l) == Sum(rows, Via(g, m), l)
  {
    if rows != [] {
      RepointedSum(rows[1..], m, g, l);
      SumCons(rows[0].(product := Sub(m, rows[0].product)), Repointed(rows[1..], m), g, l);
    }
  }

  lemma {:induction false} DropUntouched(rows: seq<Level>, all: seq<Level>, m: Merge, l: Id)
    requires m.keep != m.drop
    ensures Sum(Absorbed(rows, all, m), Is(m.drop), l) == Sum(rows, Is(m.drop), l)
  {
    if rows != [] {
      DropUntouched(rows[1..], all, m, l);
      SumHead(rows, Is(m.drop), l);
      SumCons(Topped(rows[0], all, m), Absorbed(rows[1..], all, m), Is(m.drop), l);
    }
  }

  /** The top-up of the keep row is what the deleted drop row held. */
  lemma TopUpIsRemoved(rows: seq<Level>, m: Merge, g: iset<Id>, l: Id)
    requires Unique(rows) && m.keep != m.drop && (m.keep in g <==> m.drop in g)
    ensures var absorbed := Absorbed(rows, rows, m);
            TopUp(rows, rows, m, g, l) == Removed(absorbed, absorbed, m, g, l)
  {
    var absorbed := Absorbed(rows, rows, m);
    AbsorbedMatch(rows, rows, m, m.keep, l);
    DropUntouched(rows, rows, m, l);
    SumOfOne(rows, m.drop, l);
  }

  lemma Cancelled(absorbed: Units, rest: Units, before: Units, up: Units, gone: Units)
    requires absorbed == Plus(rest, gone) && absorbed == Plus(before, up) && up == gone
    ensures rest == before
  {
  }

  lemma RestAmounts(rows: seq<Level>, m: Merge, g: iset<Id>, l: Id)
    requires Unique(rows) && m.keep != m.drop && (m.keep in g <==> m.drop in g)
    ensures var absorbed := Absorbed(rows, rows, m);
            Sum(Remaining(absorbed, absorbed, m), g, l) == Sum(rows, g, l)
  {
    var absorbed := Absorbed(rows, rows, m);
    RemainingSum(absorbed, absorbed, m, g, l);
    AbsorbedSum(rows, rows, m, g, l);
    TopUpIsRemoved(rows, m, g, l);
    Cancelled(Sum(absorbed, g, l), Sum(Remaining(absorbed, absorbed, m), g, l), Sum(rows, g, l),
              TopUp(rows, rows, m, g, l), Removed(absorbed, absorbed, m, g, l));
  }

  lemma AmountsQuotient(rows: seq<Level>, m: Merge, g: iset<Id>, l: Id)
    requires Unique(rows) && m.keep != m.drop
    ensures Sum(MergedLevels(rows, m), g, l) == Sum(rows, Via(g, m), l)
  {
    var absorbed := Absorbed(rows, rows, m);
    RestAmounts(rows, m, Via(g, m), l);
    RepointedSum(Remaining(absorbed, absorbed, m), m, g, l);
  }

  lemma NoClash(rows: seq<Level>, m: Merge, l: Id)
    requires m.keep != m.drop
    ensures var absorbed := Absorbed(rows, rows, m);
            var rest := Remaining(absorbed, absorbed, m);
            && (Match(rest, m.keep, l).Some? <==> Match(rows, m.keep, l).Some?)
            && (Match(rest, m.drop, l).Some? <==> Match(rows, m.drop, l).Some? && Match(rows, m.keep, l).None?)
  {
    var absorbed := Absorbed(rows, rows, m);
    RemainingMatch(absorbed, absorbed, m, m.drop, l);
    RemainingMatch(absorbed, absorbed, m, m.keep, l);
    AbsorbedMatch(rows, rows, m, m.keep, l);
    AbsorbedMatch(rows, rows, m, m.drop, l);
  }

  lemma MergedUnique(rows: seq<Level>, m: Merge)
    requires Unique(rows) && m.keep != m.drop
    ensures Unique(MergedLevels(rows, m))
  {
    var absorbed := Absorbed(rows, rows, m);
    AbsorbedUnique(rows, rows, m);
    RemainingUnique(absorbed, absorbed, m);
    forall l { NoClash(rows, m, l); }
    RepointedUnique(Remaining(absorbed, absorbed, m), m);
  }

  lemma MergedMatch(rows: seq<Level>, m: Merge, p: Id, l: Id)
    requires m.keep != m.drop
    ensures Match(MergedLevels(rows, m), p, l).Some?
       <==> p != m.drop && (Match(rows, p, l).Some? || (p == m.keep && Match(rows, m.drop, l).Some?))
  {
    var absorbed := Absorbed(rows, rows, m);
    RepointedMatch(Remaining(absorbed, absorbed, m), m, p, l);
    NoClash(rows, m, l);
    RemainingMatch(absorbed, absorbed, m, p, l);
    AbsorbedMatch(rows, rows, m, p, l);
  }

  lemma StockedAt(rows: seq<Level>, g: iset<Id>, l: Id)
    ensures Stocked(rows, g, l) <==> exists p :: p in g && Match(rows, p, l).Some?
  {
    if Stocked(rows, g, l) {
      var r :| r in rows && r.location == l && r.product in g;
      MatchIsStocked(rows, r.product, l);
      assert r.product in Is(r.product);
    }
    forall p | p in g && Match(rows, p, l).Some? ensures Stocked(rows, g, l) { MatchIsStocked(rows, p, l); }
  }

  lemma StockedQuotient(rows: seq<Level>, m: Merge, g: iset<Id>, l: Id)
    requires m.keep != m.drop
    ensures Stocked(MergedLevels(rows, m), g, l) <==> Stocked(rows, Via(g, m), l)
  {
    StockedAt(MergedLevels(rows, m), g, l);
    StockedAt(rows, Via(g, m), l);
    forall p { MergedMatch(rows, m, p, l); }
    if p :| p in Via(g, m) && Match(rows, p, l).Some? {
      MergedMatch(rows, m, Sub(m, p), l);
      assert Sub(m, p) in g && Match(MergedLevels(rows, m), Sub(m, p), l).Some?;
    }
    if p :| p in g && Match(MergedLevels(rows, m), p, l).Some? {
      assert Match(rows, p, l).Some? ==> p in Via(g, m);
      assert m.keep in g ==> m.drop in Via(g, m);
    }
  }

  // ---- A list of merges -------------------------------------------------------------------

  function MergedLevelsAll(rows: seq<Level>, ms: seq<Merge>): seq<Level>
    decreases |ms|
  {
    if ms == [] then rows else MergedLevelsAll(MergedLevels(rows, ms[0]), ms[1..])
  }

  ghost function ViaAll(g: iset<Id>, ms: seq<Merge>): iset<Id> {
    iset x: Id | Rep(ms, x) in g
  }

  predicate Proper(ms: seq<Merge>) {
    forall i :: 0 <= i < |ms| ==> ms[i].keep != ms[i].drop
  }

  /** Any list of merges moves stock and reservations along its product map and nothing else:
      for every set of products and location, the set holds afterwards exactly what the products
      sent into it held before, has a row exactly if one of them had, and (product, location)
      stays unique. */
  lemma {:induction false} StockQuotient(rows: seq<Level>, ms: seq<Merge>, g: iset<Id>, l: Id)
    requires Unique(rows) && Proper(ms)
    ensures Unique(MergedLevelsAll(rows, ms))
    ensures Sum(MergedLevelsAll(rows, ms), g, l) == Sum(rows, ViaAll(g, ms), l)
    ensures Stocked(MergedLevelsAll(rows, ms), g, l) <==> Stocked(rows, ViaAll(g, ms), l)
    decreases |ms|
  {
    if ms == [] {
      assert ViaAll(g, ms) == g;
    } else {
      var m, rest := ms[0], ms[1..];
      MergedUnique(rows, m);
      StockQuotient(MergedLevels(rows, m), rest, g, l);
      AmountsQuotient(rows, m, ViaAll(g, rest), l);
      StockedQuotient(rows, m, ViaAll(g, rest), l);
      assert Via(ViaAll(g, rest), m) == ViaAll(g, ms);
    }
  }

  /** Everything at one location. */
  function Total(rows: seq<Level>, l: Id): Units {
    if rows == [] then Units(0, 0)
    else if rows[0].location == l then Plus(Amount(rows[0]), Total(rows[1..], l))
    else Total(rows[1..], l)
  }

  lemma {:induction false} TotalIsSum(rows: seq<Level>, g: iset<Id>, l: Id)
    requires forall x: Id :: x in g
    ensures Total(rows, l) == Sum(rows, g, l)
  {
    if rows != [] { TotalIsSum(rows[1..], g, l); }
  }

  /** No unit of stock or reservation is lost or made at any location. */
  lemma StockConserved(rows: seq<Level>, ms: seq<Merge>, l: Id)
    requires Unique(rows) && Proper(ms)
    ensures Total(MergedLevelsAll(rows, ms), l) == Total(rows, l)
  {
    var g := iset x: Id | Rep([], x) == x;
    StockQuotient(rows, ms, g, l);
    TotalIsSum(MergedLevelsAll(rows, ms), g, l);
    TotalIsSum(rows, ViaAll(g, ms), l);
  }
}
