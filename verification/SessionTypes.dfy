/** Memberships, country grants and the rules that reconcile a session with them. */
module SessionTypes {

  import opened Common

  datatype Membership = Membership(branchId: string, isPrimary: bool)
  datatype Grant = Grant(currencyCode: string, groupId: string)

  function Ids(ms: seq<Membership>): seq<string> {
    seq(|ms|, i requires 0 <= i < |ms| => ms[i].branchId)
  }

  function Primary(ms: seq<Membership>): Option<string> {
    if ms == [] then None else if ms[0].isPrimary then Some(ms[0].branchId) else Primary(ms[1..])
  }

  /** The active branch after a membership change: kept while it is a membership, else the
      primary one, else the first, else none. */
  function Reconciled(current: Option<string>, ms: seq<Membership>): Option<string> {
    if current.Some? && current.value !in Ids(ms)
    then (if Primary(ms).Some? then Primary(ms) else if ms != [] then Some(ms[0].branchId) else None)
    else current
  }

  /** The codes granted in one company; every grant when no company is given. */
  function Codes(gs: seq<Grant>, group: Option<string>): seq<string> {
    if gs == [] then []
    else (if !Truthy(group) || gs[0].groupId == group.value then [gs[0].currencyCode] else []) + Codes(gs[1..], group)
  }

  /** A live session's codes after its user's grants changed. */
  function RefreshedCodes(gs: seq<Grant>, group: Option<string>): seq<string> {
    if Truthy(group) then Codes(gs, group) else Distinct(Codes(gs, None))
  }

  lemma {:induction false} PrimaryIsMember(ms: seq<Membership>)
    ensures Primary(ms).Some? ==> Primary(ms).value in Ids(ms)
  {
    if ms != [] {
      if ms[0].isPrimary {
        assert Ids(ms)[0] == ms[0].branchId;
      } else {
        PrimaryIsMember(ms[1..]);
        assert Ids(ms)[1..] == Ids(ms[1..]);
      }
    }
  }

  /** The reconciled branch is a membership or none, it moved only if it had been removed, and
      it is empty only if there was nothing to fall back to. */
  lemma ReconciledStaysInside(current: Option<string>, ms: seq<Membership>)
    ensures var b := Reconciled(current, ms);
            && (b.Some? ==> b.value in Ids(ms))
            && (b != current ==> current.Some? && current.value !in Ids(ms))
            && (b.None? ==> current.None? || ms == [])
            && Reconciled(b, ms) == b
  {
    PrimaryIsMember(ms);
    if ms != [] { assert Ids(ms)[0] == ms[0].branchId; }
  }

  lemma {:induction false} CodesGranted(gs: seq<Grant>, group: Option<string>, c: string)
    ensures c in Codes(gs, group)
       <==> exists g :: g in gs && (Truthy(group) ==> g.groupId == group.value) && g.currencyCode == c
  {
    if gs != [] {
      CodesGranted(gs[1..], group, c);
      assert gs == [gs[0]] + gs[1..];
    }
  }

  /** A session in a company gets the codes granted there and no other; a session without one
      gets every granted code, once. */
  lemma RefreshedCodesOwnCompany(gs: seq<Grant>, group: Option<string>, c: string)
    ensures c in RefreshedCodes(gs, group)
       <==> exists g :: g in gs && (Truthy(group) ==> g.groupId == group.value) && g.currencyCode == c
    ensures !Truthy(group) ==>
      NoRepeats(RefreshedCodes(gs, group))
  {
    CodesGranted(gs, group, c);
    CodesGranted(gs, None, c);
    DistinctKeeps(Codes(gs, None));
  }

  // ---- The same, position by position -----------------------------------------------------

  predicate BranchesOf(ids: seq<string>, ms: seq<Membership>) {
    |ids| == |ms| && forall i :: 0 <= i < |ms| ==> ids[i] == ms[i].branchId
  }

  /** The active branch is kept while it is a membership or none; else it is the first primary one,
      else the first, else none. */
  predicate BranchKept(was: Option<string>, now: Option<string>, ms: seq<Membership>) {
    if was.None? || exists i :: 0 <= i < |ms| && ms[i].branchId == was.value then now == was
    else
      && (forall i :: 0 <= i < |ms| && ms[i].isPrimary && (forall j :: 0 <= j < i ==> !ms[j].isPrimary)
            ==> now == Some(ms[i].branchId))
      && ((forall i :: 0 <= i < |ms| ==> !ms[i].isPrimary) ==>
            now == if ms != [] then Some(ms[0].branchId) else None)
  }

  lemma {:induction false} PrimaryIs(ms: seq<Membership>)
    ensures forall i :: 0 <= i < |ms| && ms[i].isPrimary && (forall j :: 0 <= j < i ==> !ms[j].isPrimary)
              ==> Primary(ms) == Some(ms[i].branchId)
    ensures (forall i :: 0 <= i < |ms| ==> !ms[i].isPrimary) ==> Primary(ms).None?
  {
    if ms != [] {
      var rest := ms[1..];
      PrimaryIs(rest);
      forall i | 0 <= i < |ms| && ms[i].isPrimary && (forall j :: 0 <= j < i ==> !ms[j].isPrimary)
        ensures Primary(ms) == Some(ms[i].branchId)
      {
        if i > 0 {
          assert !ms[0].isPrimary && rest[i - 1] == ms[i];
          forall j | 0 <= j < i - 1 ensures !rest[j].isPrimary { assert rest[j] == ms[j + 1]; }
        }
      }
    }
  }

  lemma IdsAre(ms: seq<Membership>, b: string)
    ensures BranchesOf(Ids(ms), ms)
    ensures b in Ids(ms) <==> exists i :: 0 <= i < |ms| && ms[i].branchId == b
  {
    if i :| 0 <= i < |ms| && ms[i].branchId == b { assert Ids(ms)[i] == b; }
  }

  lemma ReconciledIs(current: Option<string>, ms: seq<Membership>)
    ensures BranchesOf(Ids(ms), ms) && BranchKept(current, Reconciled(current, ms), ms)
  {
    PrimaryIs(ms);
    if current.Some? { IdsAre(ms, current.value); }
  }

  /** `codes` are those at the kept positions, in order. */
  ghost predicate PicksAt(codes: seq<string>, from: seq<string>, keep: set<nat>, at: seq<nat>) {
    && |at| == |codes|
    && (forall i, j :: 0 <= i < j < |at| ==> at[i] < at[j])
    && (forall i :: 0 <= i < |at| ==> at[i] < |from| && codes[i] == from[at[i]])
    && (forall k: nat :: k in at <==> k in keep)
  }

  ghost predicate Picks(codes: seq<string>, from: seq<string>, keep: set<nat>) {
    exists at :: PicksAt(codes, from, keep, at)
  }

  function CodesOf(gs: seq<Grant>): seq<string> {
    seq(|gs|, i requires 0 <= i < |gs| => gs[i].currencyCode)
  }

  /** The grants of one company; all of them when no company is given. */
  function GrantsIn(gs: seq<Grant>, group: Option<string>): set<nat> {
    set k: nat | k < |gs| && (Truthy(group) ==> gs[k].groupId == group.value)
  }

  /** Where each code is first seen. */
  function FirstSeen(s: seq<string>): set<nat> {
    set k: nat | k < |s| && s[k] !in s[..k]
  }

  function Later(at: seq<nat>): seq<nat> {
    seq(|at|, i requires 0 <= i < |at| => at[i] + 1)
  }

  lemma LaterIn(at: seq<nat>, k: nat)
    ensures k in Later(at) <==> k > 0 && k - 1 in at
  {
    if k > 0 && k - 1 in at {
      var i :| 0 <= i < |at| && at[i] == k - 1;
      assert Later(at)[i] == k;
    }
  }

  lemma GrantsInNext(gs: seq<Grant>, group: Option<string>, k: nat)
    requires gs != []
    ensures k + 1 in GrantsIn(gs, group) <==> k in GrantsIn(gs[1..], group)
    ensures 0 in GrantsIn(gs, group) <==> (Truthy(group) ==> gs[0].groupId == group.value)
  {
  }

  lemma LaterPicks(codes: seq<string>, g: Grant, gs: seq<Grant>, keep: set<nat>, at: seq<nat>)
    requires PicksAt(codes, CodesOf(gs), keep, at)
    ensures |Later(at)| == |codes|
    ensures forall i, j :: 0 <= i < j < |at| ==> Later(at)[i] < Later(at)[j]
    ensures forall i :: 0 <= i < |at| ==>
              0 < Later(at)[i] <= |gs| && codes[i] == CodesOf([g] + gs)[Later(at)[i]]
  {
  }

  /** One more grant in front, and its code picked or not. */
  lemma PicksNext(codes: seq<string>, g: Grant, gs: seq<Grant>, keep: set<nat>, at: seq<nat>)
    requires PicksAt(codes, CodesOf(gs), keep, at)
    ensures forall i, j :: 0 <= i < j < |at| + 1 ==> ([0] + Later(at))[i] < ([0] + Later(at))[j]
    ensures forall i :: 0 <= i < |at| + 1 ==>
              ([0] + Later(at))[i] <= |gs|
              && ([g.currencyCode] + codes)[i] == CodesOf([g] + gs)[([0] + Later(at))[i]]
  {
    LaterPicks(codes, g, gs, keep, at);
  }

  lemma {:induction false} CodesPicked(gs: seq<Grant>, group: Option<string>) returns (at: seq<nat>)
    ensures PicksAt(Codes(gs, group), CodesOf(gs), GrantsIn(gs, group), at)
  {
    if gs == [] {
      at := [];
    } else {
      var rest := CodesPicked(gs[1..], group);
      var codes, keep := Codes(gs[1..], group), GrantsIn(gs[1..], group);
      var first := Truthy(group) ==> gs[0].groupId == group.value;
      at := if first then [0] + Later(rest) else Later(rest);
      assert gs == [gs[0]] + gs[1..];
      LaterPicks(codes, gs[0], gs[1..], keep, rest);
      if first { PicksNext(codes, gs[0], gs[1..], keep, rest); }
      PickedNext(gs, group, rest);
      assert Codes(gs, group) == if first then [gs[0].currencyCode] + codes else codes;
    }
  }

  lemma PickedNext(gs: seq<Grant>, group: Option<string>, rest: seq<nat>)
    requires gs != [] && forall k: nat :: k in rest <==> k in GrantsIn(gs[1..], group)
    ensures var first := Truthy(group) ==> gs[0].groupId == group.value;
            forall k: nat :: k in GrantsIn(gs, group)
                        <==> if first then k in [0] + Later(rest) else k in Later(rest)
  {
    forall k: nat
      ensures k in GrantsIn(gs, group) <==> (k == 0 && 0 in GrantsIn(gs, group)) || k in Later(rest)
    {
      LaterIn(rest, k);
      GrantsInNext(gs, group, if k > 0 then k - 1 else 0);
    }
    GrantsInNext(gs, group, 0);
  }

  lemma FirstSeenNext(front: seq<string>, last: string, k: nat)
    ensures k in FirstSeen(front + [last]) <==> k in FirstSeen(front) || (k == |front| && last !in front)
  {
    var s := front + [last];
    if k <= |front| { assert s[..k] == front[..k]; }
  }

  lemma {:induction false} DistinctPicked(s: seq<string>) returns (at: seq<nat>)
    ensures PicksAt(Distinct(s), s, FirstSeen(s), at)
  {
    if s == [] {
      at := [];
    } else {
      var front, last := s[..|s| - 1], s[|s| - 1];
      at := DistinctPicked(front);
      assert s == front + [last];
      forall k: nat ensures k in FirstSeen(s) <==> k in FirstSeen(front) || (k == |front| && last !in front) {
        FirstSeenNext(front, last, k);
      }
      assert last in Distinct(front) <==> last in front by { DistinctKeeps(front); }
      if last !in front { at := at + [|front|]; }
    }
  }

  lemma {:induction false} AllCodes(gs: seq<Grant>)
    ensures Codes(gs, None) == CodesOf(gs)
  {
    if gs != [] {
      AllCodes(gs[1..]);
      assert CodesOf(gs) == [gs[0].currencyCode] + CodesOf(gs[1..]);
    }
  }

  /** The codes granted in a company, in the order of the grants; without a company all of them. */
  ghost predicate CodesGrantedIn(codes: seq<string>, group: Option<string>, gs: seq<Grant>) {
    Picks(codes, CodesOf(gs), GrantsIn(gs, group))
  }

  /** The same for a live session, which lists each code once when it has no company. */
  ghost predicate GrantsKept(codes: seq<string>, group: Option<string>, gs: seq<Grant>) {
    if Truthy(group) then CodesGrantedIn(codes, group, gs) else Picks(codes, CodesOf(gs), FirstSeen(CodesOf(gs)))
  }

  lemma CodesAre(gs: seq<Grant>, group: Option<string>)
    ensures CodesGrantedIn(Codes(gs, group), group, gs)
  {
    var at := CodesPicked(gs, group);
  }

  lemma RefreshedCodesAre(gs: seq<Grant>, group: Option<string>)
    ensures GrantsKept(RefreshedCodes(gs, group), group, gs)
  {
    CodesAre(gs, group);
    AllCodes(gs);
    var at := DistinctPicked(CodesOf(gs));
  }
}
