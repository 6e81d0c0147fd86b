/** Small vocabulary shared by the models: options and counting over sequences. */
module Basics {

  datatype Option<+T> = None | Some(value: T)

  /** A refusal at time t makes a call that began at `start` give up. */
  predicate IsLate(timeout: Option<real>, start: real, t: real) { timeout.Some? && t - start >= timeout.value }

  /** How many elements of `s` satisfy `p`. */
  function Count<T>(p: T -> bool, s: seq<T>): nat {
    if s == [] then 0
    else Count(p, s[..|s| - 1]) + (if p(s[|s| - 1]) then 1 else 0)
  }

  lemma CountSnoc<T>(p: T -> bool, s: seq<T>, x: T)
    ensures Count(p, s + [x]) == Count(p, s) + (if p(x) then 1 else 0)
  {
    assert (s + [x])[..|s|] == s;
  }

  lemma {:induction false} CountAdd<T>(p: T -> bool, a: seq<T>, b: seq<T>)
    ensures Count(p, a + b) == Count(p, a) + Count(p, b)
  {
    if b == [] {
      assert a + b == a;
    } else {
      CountAdd(p, a, b[..|b| - 1]);
      assert (a + b)[..|a + b| - 1] == a + b[..|b| - 1];
    }
  }

  lemma {:induction false} CountUpdate<T>(p: T -> bool, s: seq<T>, i: nat, x: T)
    requires i < |s|
    ensures Count(p, s[i := x]) == Count(p, s) - (if p(s[i]) then 1 else 0) + (if p(x) then 1 else 0)
  {
    var n := |s| - 1;
    if i == n {
      assert s[i := x][..n] == s[..n];
    } else {
      CountUpdate(p, s[..n], i, x);
      assert s[i := x][..n] == s[..n][i := x];
    }
  }

  lemma {:induction false} CountAtMostLength<T>(p: T -> bool, s: seq<T>)
    ensures Count(p, s) <= |s|
  {
    if s != [] { CountAtMostLength(p, s[..|s| - 1]); }
  }

  lemma {:induction false} CountPositive<T>(p: T -> bool, s: seq<T>, i: nat)
    requires i < |s| && p(s[i])
    ensures Count(p, s) >= 1
  {
    if i < |s| - 1 { CountPositive(p, s[..|s| - 1], i); }
  }

  lemma {:induction false} CountNone<T>(p: T -> bool, s: seq<T>)
    requires forall i :: 0 <= i < |s| ==> !p(s[i])
    ensures Count(p, s) == 0
  {
    if s != [] { CountNone(p, s[..|s| - 1]); }
  }

  /** Two disjoint conditions, with one position satisfying neither. */
  lemma {:induction false} CountDisjoint<T>(p: T -> bool, q: T -> bool, s: seq<T>)
    requires forall i :: 0 <= i < |s| ==> !(p(s[i]) && q(s[i]))
    ensures Count(p, s) + Count(q, s) <= |s|
    ensures (exists i :: 0 <= i < |s| && !p(s[i]) && !q(s[i])) ==> Count(p, s) + Count(q, s) < |s|
  {
    if s != [] {
      var n := |s| - 1;
      CountDisjoint(p, q, s[..n]);
      if i :| 0 <= i < |s| && !p(s[i]) && !q(s[i]) {
        assert i < n ==> !p(s[..n][i]) && !q(s[..n][i]);
      }
    }
  }

  /** The positions in `s` of what satisfies `p`, in order. */
  function Indices<T>(p: T -> bool, s: seq<T>): seq<nat> {
    if s == [] then [] else Indices(p, s[..|s| - 1]) + if p(s[|s| - 1]) then [|s| - 1] else []
  }

  lemma {:induction false} IndicesAreExact<T>(p: T -> bool, s: seq<T>)
    ensures forall i: nat :: i in Indices(p, s) <==> i < |s| && p(s[i])
    ensures forall j, k :: 0 <= j < k < |Indices(p, s)| ==> Indices(p, s)[j] < Indices(p, s)[k]
  {
    if s != [] {
      IndicesAreExact(p, s[..|s| - 1]);
      var earlier := Indices(p, s[..|s| - 1]);
      assert forall j :: 0 <= j < |earlier| ==> earlier[j] in earlier;
    }
  }

  /** One more element adds its position if it satisfies `p`. */
  lemma IndicesSnoc<T>(p: T -> bool, s: seq<T>)
    requires s != []
    ensures var n := |s| - 1; Indices(p, s) == Indices(p, s[..n]) + if p(s[n]) then [n] else []
  {
  }

  lemma IndicesInside<T>(p: T -> bool, s: seq<T>)
    ensures forall j :: 0 <= j < |Indices(p, s)| ==> Indices(p, s)[j] < |s| && p(s[Indices(p, s)[j]])
  {
    IndicesAreExact(p, s);
    assert forall j :: 0 <= j < |Indices(p, s)| ==> Indices(p, s)[j] in Indices(p, s);
  }

  /** The elements of `s` above `cutoff`, in order. */
  function Above(s: seq<real>, cutoff: real): seq<real> {
    if s == [] then []
    else Above(s[..|s| - 1], cutoff) + (if s[|s| - 1] > cutoff then [s[|s| - 1]] else [])
  }

  lemma {:induction false} AboveKeeps(s: seq<real>, cutoff: real)
    ensures |Above(s, cutoff)| <= |s|
    ensures forall x :: x in Above(s, cutoff) <==> x in s && x > cutoff
  {
    if s != [] {
      var n := |s| - 1;
      AboveKeeps(s[..n], cutoff);
      assert s == s[..n] + [s[n]];
    }
  }

  /** Filtering by a bound that no counted element is below changes no count. */
  lemma {:induction false} CountAbove(p: real -> bool, s: seq<real>, cutoff: real)
    requires forall x :: x in s && p(x) ==> x > cutoff
    ensures Count(p, Above(s, cutoff)) == Count(p, s)
  {
    if s != [] {
      var n := |s| - 1;
      assert s == s[..n] + [s[n]];
      CountAbove(p, s[..n], cutoff);
      if s[n] > cutoff { CountSnoc(p, Above(s[..n], cutoff), s[n]); }
      else { assert Above(s, cutoff) == Above(s[..n], cutoff); }
    }
  }
}
