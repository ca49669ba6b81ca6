/** Definitions the other modules share. */
module Common {

  datatype Option<T> = None | Some(value: T)

  predicate Distinct(s: seq<nat>) { forall i, j :: 0 <= i < j < |s| ==> s[i] != s[j] }

  function IndexOf(s: seq<nat>, b: nat): (i: nat)
    requires b in s
    ensures i < |s| && s[i] == b
  {
    if s[0] == b then 0 else 1 + IndexOf(s[1..], b)
  }

  lemma {:induction false} SubsetSize(a: set<nat>, b: set<nat>)
    requires a <= b
    ensures |a| <= |b| && (|a| == |b| ==> a == b)
  {
    if a != {} {
      var x :| x in a;
      SubsetSize(a - {x}, b - {x});
    }
  }

  function Interval(lo: nat, n: nat): (r: set<nat>)
    ensures |r| == n && forall p: nat :: p in r <==> lo <= p < lo + n
  {
    if n == 0 then {} else Interval(lo, n - 1) + {lo + n - 1}
  }

  lemma UnionSize(a: set<nat>, b: set<nat>)
    ensures |a + b| <= |a| + |b|
  {
    assert a + b == a + (b - a);
    SubsetSize(b - a, b);
  }

  function Elements(s: seq<nat>): set<nat> { set b | b in s }

  lemma {:induction false} ElementsSize(s: seq<nat>)
    requires forall i, j :: 0 <= i < j < |s| ==> s[i] != s[j]
    ensures |Elements(s)| == |s|
  {
    if |s| > 0 {
      var t := s[..|s| - 1];
      ElementsSize(t);
      assert Elements(s) == Elements(t) + {s[|s| - 1]};
    }
  }
}
