/** Rejecting the newer of several pending permission requests for the same thing. */
module DuplicateRequests {
  import opened Common

  datatype Kind = UserCreation | RoleChange | OtherKind
  datatype Status = Pending | Approved | Rejected
  datatype Payload = NotAnObject | Fields(email: Option<string>, phone: Option<string>)

  datatype Request = Request(
    id: nat, kind: Kind, target: Option<string>, payload: Payload, createdAt: int, status: Status)

  /** The text functions of the platform. */
  datatype Platform = Platform(trim: string -> string, lower: string -> string)

  // ---- Keys -------------------------------------------------------------------------------

  function Trimmed(p: Platform, s: Option<string>): string {
    if s.Some? then p.trim(s.value) else ""
  }

  function Email(p: Platform, payload: Payload): string
    requires payload.Fields?
  {
    if Trimmed(p, payload.email) != "" then p.lower(Trimmed(p, payload.email)) else ""
  }

  function UserCreationKey(p: Platform, payload: Payload): Option<string> {
    if payload.NotAnObject? then None
    else
      var email, phone := Email(p, payload), Trimmed(p, payload.phone);
      if email != "" then Some("USER_CREATION:" + email)
      else if phone != "" then Some("USER_CREATION:phone:" + phone)
      else None
  }

  function Key(p: Platform, r: Request): Option<string> {
    if r.kind.RoleChange?
    then (if r.target.Some? && r.target.value != "" then Some("ROLE_CHANGE:" + r.target.value) else None)
    else UserCreationKey(p, r.payload)
  }

  lemma SamePrefix(prefix: string, a: string, b: string)
    ensures prefix + a == prefix + b <==> a == b
  {
    if prefix + a == prefix + b {
      assert (prefix + a)[|prefix|..] == a && (prefix + b)[|prefix|..] == b;
    }
  }

  /** The texts that tell user creations apart, from the raw fields. */
  function RawEmail(p: Platform, payload: Payload): string
    requires payload.Fields?
  {
    match payload.email case None => "" case Some(e) => if p.trim(e) == "" then "" else p.lower(p.trim(e))
  }

  function RawPhone(p: Platform, payload: Payload): string
    requires payload.Fields?
  {
    match payload.phone case None => "" case Some(s) => p.trim(s)
  }

  /** A request has a key exactly if it is a role change with a target, or anything else whose
      payload has an email or a phone that is not blank. */
  lemma HasKeyIff(p: Platform, r: Request)
    ensures Key(p, r).Some?
       <==> if r.kind == RoleChange then r.target.Some? && r.target.value != ""
            else r.payload.Fields? && (RawEmail(p, r.payload) != "" || RawPhone(p, r.payload) != "")
  {
  }

  /** Two user-creation requests count as one exactly if they name the same email (trimmed, in
      lower case), or have none and name the same phone (trimmed), or the one's email reads as
      "phone:" and the other's phone. */
  lemma SameUserKeyIff(p: Platform, a: Payload, b: Payload)
    requires UserCreationKey(p, a).Some? && UserCreationKey(p, b).Some?
    ensures a.Fields? && b.Fields? &&
            var ea, eb, pa, pb := RawEmail(p, a), RawEmail(p, b), RawPhone(p, a), RawPhone(p, b);
            UserCreationKey(p, a) == UserCreationKey(p, b)
            <==> if ea != "" then (if eb != "" then ea == eb else ea == "phone:" + pb)
                 else (if eb != "" then eb == "phone:" + pa else pa == pb)
  {
    var ea, eb, pa, pb := RawEmail(p, a), RawEmail(p, b), RawPhone(p, a), RawPhone(p, b);
    SamePrefix("USER_CREATION:", ea, eb);
    SamePrefix("USER_CREATION:phone:", pa, pb);
    assert forall s: string :: "USER_CREATION:phone:" + s == "USER_CREATION:" + ("phone:" + s);
    SamePrefix("USER_CREATION:", ea, "phone:" + pb);
    SamePrefix("USER_CREATION:", eb, "phone:" + pa);
  }

  /** A role change never counts as a user creation, and is told apart by its target alone. */
  lemma RoleKeysApart(p: Platform, a: Request, b: Request)
    requires a.kind.RoleChange? && Key(p, a).Some? && Key(p, b).Some?
    ensures Key(p, a) == Key(p, b) <==> b.kind.RoleChange? && a.target == b.target
  {
    if b.kind.RoleChange? {
      SamePrefix("ROLE_CHANGE:", a.target.value, b.target.value);
    } else {
      assert Key(p, a).value[0] == 'R' && Key(p, b).value[0] == 'U';
    }
  }

  // ---- Order ------------------------------------------------------------------------------

  predicate Before(a: Request, b: Request) {
    a.createdAt < b.createdAt || (a.createdAt == b.createdAt && a.id < b.id)
  }

  function InsertByAge(r: Request, s: seq<Request>): seq<Request> {
    if s == [] || Before(r, s[0]) then [r] + s else [s[0]] + InsertByAge(r, s[1..])
  }

  function Sorted(s: seq<Request>): seq<Request> {
    if s == [] then [] else InsertByAge(s[0], Sorted(s[1..]))
  }

  predicate UniqueIds(s: seq<Request>) {
    forall i, j :: 0 <= i < j < |s| ==> s[i].id != s[j].id
  }

  predicate Ascending(s: seq<Request>) {
    forall i, j :: 0 <= i < j < |s| ==> Before(s[i], s[j])
  }

  lemma {:induction false} InsertByAgeIs(r: Request, s: seq<Request>)
    requires Ascending(s) && forall x :: x in s ==> x.id != r.id
    ensures Ascending(InsertByAge(r, s))
    ensures forall x :: x in InsertByAge(r, s) <==> x == r || x in s
  {
    if s != [] && !Before(r, s[0]) {
      InsertByAgeIs(r, s[1..]);
      var rest := InsertByAge(r, s[1..]);
      assert s[0] in s && s == [s[0]] + s[1..];
      forall x | x in rest ensures Before(s[0], x) {
        if x != r {
          var i :| 0 <= i < |s[1..]| && s[1..][i] == x;
          assert s[i + 1] == x;
        }
      }
      forall i, j | 0 <= i < j < |rest| + 1 ensures Before(InsertByAge(r, s)[i], InsertByAge(r, s)[j]) {
        assert InsertByAge(r, s)[j] == rest[j - 1] && rest[j - 1] in rest;
        if i > 0 { assert InsertByAge(r, s)[i] == rest[i - 1]; }
      }
    }
  }

  lemma {:induction false} SortedIs(s: seq<Request>)
    requires UniqueIds(s)
    ensures Ascending(Sorted(s))
    ensures forall x :: x in Sorted(s) <==> x in s
  {
    if s != [] {
      SortedIs(s[1..]);
      forall x | x in Sorted(s[1..]) ensures x.id != s[0].id {
        var i :| 0 <= i < |s[1..]| && s[1..][i] == x;
        assert s[i + 1] == x;
      }
      InsertByAgeIs(s[0], Sorted(s[1..]));
      assert s == [s[0]] + s[1..];
    }
  }

  /** The first of a sorted group is kept; the others are those with an older one beside them. */
  lemma TailIsNewer(g: seq<Request>, r: Request)
    requires UniqueIds(g) && g != []
    ensures Sorted(g) != []
    ensures r in Sorted(g)[1..] <==> r in g && exists q :: q in g && Before(q, r)
  {
    SortedIs(g);
    var s := Sorted(g);
    assert g[0] in s;
    assert s == [s[0]] + s[1..];
    if r in s[1..] {
      var i :| 0 <= i < |s[1..]| && s[1..][i] == r;
      assert s[i + 1] == r && s[0] in g && Before(s[0], r);
    }
    if r in g && r !in s[1..] {
      forall q | q in g ensures !Before(q, r) {
        var j :| 0 <= j < |s| && s[j] == q;
      }
    }
  }

  // ---- Grouping ---------------------------------------------------------------------------

  function OfKey(p: Platform, rows: seq<Request>, key: string): seq<Request> {
    if rows == [] then []
    else
      var last := rows[|rows| - 1];
      OfKey(p, rows[..|rows| - 1], key) + if Key(p, last) == Some(key) then [last] else []
  }

  lemma {:induction false} OfKeyIs(p: Platform, rows: seq<Request>, key: string)
    ensures forall r :: r in OfKey(p, rows, key) <==> r in rows && Key(p, r) == Some(key)
    ensures UniqueIds(rows) ==> UniqueIds(OfKey(p, rows, key))
  {
    if rows != [] {
      var front, last := rows[..|rows| - 1], rows[|rows| - 1];
      OfKeyIs(p, front, key);
      assert rows == front + [last];
      if UniqueIds(rows) {
        forall r | r in OfKey(p, front, key) ensures r.id != last.id {
          var i :| 0 <= i < |front| && front[i] == r;
          assert rows[i] == r;
        }
      }
    }
  }

  lemma OfKeyNext(p: Platform, rows: seq<Request>, i: nat)
    requires i < |rows|
    ensures forall k :: OfKey(p, rows[..i + 1], k)
                     == OfKey(p, rows[..i], k) + if Key(p, rows[i]) == Some(k) then [rows[i]] else []
  {
    assert rows[..i + 1][..i] == rows[..i];
  }

  method GroupByKey(p: Platform, rows: seq<Request>) returns (groups: map<string, seq<Request>>, order: seq<string>)
    ensures forall k :: k in groups <==> k in order
    ensures forall k :: k in groups ==> groups[k] == OfKey(p, rows, k) && groups[k] != []
    ensures forall k :: k !in groups ==> OfKey(p, rows, k) == []
  {
    groups, order := map[], [];
    for i := 0 to |rows|
      invariant forall k :: k in groups <==> k in order
      invariant forall k :: k in groups ==> groups[k] == OfKey(p, rows[..i], k) && groups[k] != []
      invariant forall k :: k !in groups ==> OfKey(p, rows[..i], k) == []
    {
      OfKeyNext(p, rows, i);
      var key := Key(p, rows[i]);
      if key.Some? {
        if key.value in groups {
          groups := groups[key.value := groups[key.value] + [rows[i]]];
        } else {
          groups, order := groups[key.value := [rows[i]]], order + [key.value];
        }
      }
    }
    assert rows[..|rows|] == rows;
  }

  // ---- The clean-up -----------------------------------------------------------------------

  predicate Considered(r: Request) {
    r.status.Pending? && !r.kind.OtherKind?
  }

  function PendingRows(rs: seq<Request>): seq<Request> {
    if rs == [] then []
    else PendingRows(rs[..|rs| - 1]) + if Considered(rs[|rs| - 1]) then [rs[|rs| - 1]] else []
  }

  lemma {:induction false} PendingRowsAre(rs: seq<Request>)
    ensures forall r :: r in PendingRows(rs) <==> r in rs && Considered(r)
    ensures UniqueIds(rs) ==> UniqueIds(PendingRows(rs))
  {
    if rs != [] {
      var front, last := rs[..|rs| - 1], rs[|rs| - 1];
      PendingRowsAre(front);
      assert rs == front + [last];
      if UniqueIds(rs) {
        forall r | r in PendingRows(front) ensures r.id != last.id {
          var i :| 0 <= i < |front| && front[i] == r;
          assert rs[i] == r;
        }
      }
    }
  }

  /** An older pending request has the same key. */
  predicate Superseded(p: Platform, rs: seq<Request>, r: Request) {
    && Considered(r) && Key(p, r).Some?
    && exists i :: 0 <= i < |rs| && Considered(rs[i]) && Key(p, rs[i]) == Key(p, r) && Before(rs[i], r)
  }

  function Cleaned(p: Platform, rs: seq<Request>): seq<Request> {
    seq(|rs|, i requires 0 <= i < |rs| => if Superseded(p, rs, rs[i]) then rs[i].(status := Rejected) else rs[i])
  }

  /** What a group contributes: the rows under its key that are not its oldest. */
  lemma GroupTail(p: Platform, rs: seq<Request>, key: string, r: Request)
    requires UniqueIds(rs) && OfKey(p, PendingRows(rs), key) != []
    ensures Sorted(OfKey(p, PendingRows(rs), key)) != []
    ensures r in Sorted(OfKey(p, PendingRows(rs), key))[1..]
       <==> r in rs && Superseded(p, rs, r) && Key(p, r) == Some(key)
  {
    var g := OfKey(p, PendingRows(rs), key);
    PendingRowsAre(rs);
    OfKeyIs(p, PendingRows(rs), key);
    TailIsNewer(g, r);
    if q :| r in g && q in g && Before(q, r) {
      var i :| 0 <= i < |rs| && rs[i] == q;
    }
    if r in rs && Superseded(p, rs, r) && Key(p, r) == Some(key) {
      var i :| 0 <= i < |rs| && Considered(rs[i]) && Key(p, rs[i]) == Key(p, r) && Before(rs[i], r);
      assert rs[i] in g;
    }
  }

  /** The newer rows of all groups. The order in which the database lists the rows does not
      matter, as each group is sorted again. */
  method FindDuplicates(p: Platform, rs: seq<Request>) returns (duplicates: seq<Request>)
    requires UniqueIds(rs)
    ensures forall r :: r in duplicates <==> r in rs && Superseded(p, rs, r)
  {
    var pending := PendingRows(rs);
    var groups, order := GroupByKey(p, pending);
    duplicates := [];
    for i := 0 to |order|
      invariant forall r :: r in duplicates
                       <==> r in rs && Superseded(p, rs, r) && Key(p, r).value in order[..i]
    {
      var sorted := Sorted(groups[order[i]]);
      forall r ensures r in sorted[1..] <==> r in rs && Superseded(p, rs, r) && Key(p, r) == Some(order[i]) {
        GroupTail(p, rs, order[i], r);
      }
      GroupTail(p, rs, order[i], sorted[0]);
      if |sorted| > 1 { duplicates := duplicates + sorted[1..]; }
    }
    forall r | r in rs && Superseded(p, rs, r) ensures Key(p, r).value in order {
      PendingRowsAre(rs);
      OfKeyIs(p, pending, Key(p, r).value);
      assert r in OfKey(p, pending, Key(p, r).value);
    }
    assert order[..|order|] == order;
  }

  /** `UPDATE ... WHERE id = id`. */
  function WithRejected(rs: seq<Request>, id: nat): seq<Request> {
    seq(|rs|, i requires 0 <= i < |rs| => if rs[i].id == id then rs[i].(status := Rejected) else rs[i])
  }

  class RequestTable {
    var requests: seq<Request>

    constructor (requests: seq<Request>)
      ensures this.requests == requests
    {
      this.requests := requests;
    }

    /** The script; without `apply` it only reports. */
    method Cleanup(p: Platform, apply: bool)
      requires UniqueIds(requests)
      modifies this`requests
      ensures requests == if apply then Cleaned(p, old(requests)) else old(requests)
    {
      var duplicates := FindDuplicates(p, requests);
      if |duplicates| == 0 || !apply {
        forall i | 0 <= i < |requests| && |duplicates| == 0 ensures !Superseded(p, requests, requests[i]) {
          assert requests[i] !in duplicates;
        }
        assert |duplicates| == 0 ==> requests == Cleaned(p, requests);
        return;
      }
      ghost var before := requests;
      for i := 0 to |duplicates|
        invariant |requests| == |before|
        invariant forall k :: 0 <= k < |before| ==>
          requests[k] == if before[k] in duplicates[..i] then before[k].(status := Rejected) else before[k]
      {
        var r := duplicates[i];
        assert r in before;
        assert duplicates[..i + 1] == duplicates[..i] + [r];
        requests := WithRejected(requests, r.id);
        forall k | 0 <= k < |before| ensures before[k].id == r.id <==> before[k] == r {
          var j :| 0 <= j < |before| && before[j] == r;
        }
      }
      assert duplicates[..|duplicates|] == duplicates;
    }
  }

  // ---- What it leaves ---------------------------------------------------------------------

  /** The oldest of the pending rows that share the key of row `i`. */
  lemma {:induction false} OldestOf(p: Platform, rs: seq<Request>, i: nat)
    returns (k: nat)
    requires i < |rs| && UniqueIds(rs) && Considered(rs[i]) && Key(p, rs[i]).Some?
    ensures k < |rs| && Considered(rs[k]) && Key(p, rs[k]) == Key(p, rs[i]) && !Superseded(p, rs, rs[k])
    ensures k == i || Before(rs[k], rs[i])
  {
    k := 0;
    var g := OfKey(p, PendingRows(rs), Key(p, rs[i]).value);
    PendingRowsAre(rs);
    OfKeyIs(p, PendingRows(rs), Key(p, rs[i]).value);
    assert rs[i] in g;
    SortedIs(g);
    var h := Sorted(g)[0];
    assert h in g;
    k :| 0 <= k < |rs| && rs[k] == h;
    forall j | 0 <= j < |rs| && Considered(rs[j]) && Key(p, rs[j]) == Key(p, h) ensures !Before(rs[j], h) {
      assert rs[j] in g;
      var n :| 0 <= n < |Sorted(g)| && Sorted(g)[n] == rs[j];
    }
    var n :| 0 <= n < |Sorted(g)| && Sorted(g)[n] == rs[i];
  }

  /** Of the pending rows under one key exactly the oldest stays pending. */
  lemma OldestSurvives(p: Platform, rs: seq<Request>, i: nat)
    requires i < |rs| && UniqueIds(rs) && Considered(rs[i]) && Key(p, rs[i]).Some?
    ensures exists k :: 0 <= k < |rs| && Key(p, rs[k]) == Key(p, rs[i]) && Considered(Cleaned(p, rs)[k])
              && (k == i || Before(rs[k], rs[i]))
    ensures Considered(Cleaned(p, rs)[i]) ==>
      forall j :: 0 <= j < |rs| && j != i && Key(p, rs[j]) == Key(p, rs[i]) ==> !Considered(Cleaned(p, rs)[j])
  {
    var k := OldestOf(p, rs, i);
    assert Considered(Cleaned(p, rs)[k]);
    forall j | 0 <= j < |rs| && j != i && Key(p, rs[j]) == Key(p, rs[i]) && Considered(Cleaned(p, rs)[i])
      ensures !Considered(Cleaned(p, rs)[j])
    {
      assert rs[i].id != rs[j].id;
      if Considered(rs[j]) {
        assert !Before(rs[j], rs[i]);
        assert Before(rs[i], rs[j]) && Superseded(p, rs, rs[j]);
      }
    }
  }

  /** Rows without a key, not pending, or of another kind are untouched, and so is everything but
      the status. */
  lemma OthersUntouched(p: Platform, rs: seq<Request>, i: nat)
    requires i < |rs|
    ensures Cleaned(p, rs)[i] == rs[i] || Cleaned(p, rs)[i] == rs[i].(status := Rejected)
    ensures !Considered(rs[i]) || Key(p, rs[i]).None? ==> Cleaned(p, rs)[i] == rs[i]
  {
  }

  /** A row is rejected exactly if it is a pending user creation or role change with a key and some
      pending one with the same key is older: created earlier, or at the same time with the smaller
      id. Nothing else about any row changes. */
  lemma RejectedIff(p: Platform, rs: seq<Request>, i: nat)
    requires i < |rs|
    ensures |Cleaned(p, rs)| == |rs| && Cleaned(p, rs)[i] == rs[i].(status := Cleaned(p, rs)[i].status)
    ensures var r := rs[i];
            Cleaned(p, rs)[i].status
            == if r.status == Pending && (r.kind == UserCreation || r.kind == RoleChange) && Key(p, r) != None
                  && exists j :: 0 <= j < |rs| && rs[j].status == Pending
                       && (rs[j].kind == UserCreation || rs[j].kind == RoleChange) && Key(p, rs[j]) == Key(p, r)
                       && (rs[j].createdAt < r.createdAt || (rs[j].createdAt == r.createdAt && rs[j].id < r.id))
               then Rejected else r.status
  {
    forall j | 0 <= j < |rs| ensures Considered(rs[j]) <==> rs[j].status == Pending && rs[j].kind != OtherKind {}
    if Superseded(p, rs, rs[i]) {
      var j :| 0 <= j < |rs| && Considered(rs[j]) && Key(p, rs[j]) == Key(p, rs[i]) && Before(rs[j], rs[i]);
    } else if Considered(rs[i]) && Key(p, rs[i]).Some? {
      forall j | 0 <= j < |rs| && Considered(rs[j]) && Key(p, rs[j]) == Key(p, rs[i]) ensures !Before(rs[j], rs[i]) {}
    }
  }

  /** What is still pending has no older pending row of its key. */
  lemma NoneLeft(p: Platform, rs: seq<Request>, i: nat)
    requires i < |rs|
    ensures !Superseded(p, Cleaned(p, rs), Cleaned(p, rs)[i])
  {
    var cs := Cleaned(p, rs);
    if Considered(cs[i]) {
      assert cs[i] == rs[i] && !Superseded(p, rs, rs[i]);
      forall j | 0 <= j < |cs| && Considered(cs[j]) ensures cs[j] == rs[j] { }
    }
  }

  /** A second run rejects nothing. */
  lemma SecondRunIdle(p: Platform, rs: seq<Request>)
    ensures Cleaned(p, Cleaned(p, rs)) == Cleaned(p, rs)
  {
    var cs := Cleaned(p, rs);
    forall i | 0 <= i < |cs| ensures !Superseded(p, cs, cs[i]) { NoneLeft(p, rs, i); }
  }
}
