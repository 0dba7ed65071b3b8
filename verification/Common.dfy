/** Values shared by the components. */
module Common {

  datatype Option<+T> = None | Some(value: T)

  /** JavaScript's test of an optional string. */
  predicate Truthy(o: Option<string>) {
    o.Some? && o.value != ""
  }

  /** Each element once, in order of first appearance, as JavaScript's `new Set` iterates. */
  function Distinct<T(==)>(s: seq<T>): seq<T> {
    if s == [] then []
    else
      var before, last := Distinct(s[..|s| - 1]), s[|s| - 1];
      if last in before then before else before + [last]
  }

  predicate NoRepeats<T(==)>(s: seq<T>) {
    forall i, j :: 0 <= i < j < |s| ==> s[i] != s[j]
  }

  lemma {:induction false} DistinctKeeps<T>(s: seq<T>)
    ensures forall x :: x in Distinct(s) <==> x in s
    ensures NoRepeats(Distinct(s))
  {
    if s != [] {
      DistinctKeeps(s[..|s| - 1]);
      assert s == s[..|s| - 1] + [s[|s| - 1]];
    }
  }

  /** A number above all of them. */
  lemma {:induction false} Above(keys: set<nat>) returns (n: nat)
    ensures forall k :: k in keys ==> k < n
    decreases |keys|
  {
    n := 0;
    if keys != {} {
      var k :| k in keys;
      n := Above(keys - {k});
      if n <= k { n := k + 1; }
      assert forall x :: x in keys ==> x == k || x in keys - {k};
    }
  }
}
