/**
 * The Kotlin collection functions the library relies on (`firstOrNull`,
 * `joinToString`), plus two reference definitions on sequences (filter and
 * keep-first-occurrence) used to state what the request engine prompts for.
 */
module Sequences {
  import opened Wrappers

  /** Kotlin's `firstOrNull { pred }`: the first element satisfying `pred`, or null. */
  function FirstOrNull<T>(s: seq<T>, pred: T -> bool): (r: Option<T>)
    ensures r.None? <==> forall i :: 0 <= i < |s| ==> !pred(s[i])
    ensures r.Some? ==> exists i :: 0 <= i < |s| && s[i] == r.value && pred(s[i]) &&
                                    forall j :: 0 <= j < i ==> !pred(s[j])
  {
    if s == [] then None
    else if pred(s[0]) then Some(s[0])
    else
      var r := FirstOrNull(s[1..], pred);
      assert forall i :: 1 <= i < |s| ==> s[i] == s[1..][i - 1];
      r
  }

  /** Kotlin's `joinToString()` with its default separator ", " and no prefix or postfix. */
  function JoinToString(parts: seq<string>): (r: string)
    ensures |parts| == 0 ==> r == ""
    ensures |parts| > 0 ==> parts[0] <= r
  {
    if |parts| == 0 then ""
    else if |parts| == 1 then parts[0]
    else parts[0] + ", " + JoinToString(parts[1..])
  }

  /** Joining a concatenation is joining the two halves and separating them once. */
  lemma {:induction false} JoinToStringAppend(a: seq<string>, b: seq<string>)
    requires |a| > 0 && |b| > 0
    ensures JoinToString(a + b) == JoinToString(a) + ", " + JoinToString(b)
  {
    if |a| == 1 {
      assert (a + b)[1..] == b;
    } else {
      assert (a + b)[1..] == a[1..] + b;
      JoinToStringAppend(a[1..], b);
    }
  }

  /** The position of the first occurrence of `x` in `s`. */
  function IndexOf<T(==)>(s: seq<T>, x: T): (k: nat)
    requires x in s
    ensures k < |s| && s[k] == x && x !in s[..k]
  {
    if s[0] == x then 0
    else
      var k := IndexOf(s[1..], x);
      assert s[..k + 1] == [s[0]] + s[1..][..k];
      1 + k
  }

  /** A position holding `x` with no `x` before it is the first occurrence. */
  lemma IndexOfAt<T>(s: seq<T>, p: nat, x: T)
    requires p < |s| && s[p] == x && x !in s[..p]
    ensures IndexOf(s, x) == p
  {
  }

  /** The elements of `s` that satisfy `pred`, in order. */
  function Filter<T(==)>(s: seq<T>, pred: T -> bool): (r: seq<T>)
    ensures |r| <= |s|
    ensures forall i :: 0 <= i < |r| ==> r[i] in s && pred(r[i])
    ensures forall i :: 0 <= i < |s| && pred(s[i]) ==> s[i] in r
  {
    if s == [] then []
    else
      var init := s[..|s| - 1];
      assert s == init + [s[|s| - 1]];
      Filter(init, pred) + (if pred(s[|s| - 1]) then [s[|s| - 1]] else [])
  }

  /** Nothing passes a filter that no element satisfies. */
  lemma {:induction false} FilterNone<T>(s: seq<T>, pred: T -> bool)
    requires forall i :: 0 <= i < |s| ==> !pred(s[i])
    ensures Filter(s, pred) == []
    decreases |s|
  {
    if s != [] {
      var init := s[..|s| - 1];
      assert forall i :: 0 <= i < |init| ==> init[i] == s[i];
      FilterNone(init, pred);
    }
  }

  /** True iff no element occurs twice. */
  predicate NoDuplicates<T(==)>(s: seq<T>)
  {
    forall i, j :: 0 <= i < j < |s| ==> s[i] != s[j]
  }

  /** The first occurrence of every element of `s`, in order. */
  function Distinct<T(==)>(s: seq<T>): (r: seq<T>)
    ensures NoDuplicates(r)
    ensures forall i :: 0 <= i < |r| ==> r[i] in s
    ensures forall i :: 0 <= i < |s| ==> s[i] in r
  {
    if s == [] then []
    else
      var init := s[..|s| - 1];
      assert s == init + [s[|s| - 1]];
      Distinct(init) + (if s[|s| - 1] in init then [] else [s[|s| - 1]])
  }

  lemma FilterSnoc<T>(s: seq<T>, x: T, pred: T -> bool)
    ensures Filter(s + [x], pred) == Filter(s, pred) + (if pred(x) then [x] else [])
  {
    assert (s + [x])[..|s + [x]| - 1] == s;
  }

  lemma DistinctSnoc<T>(s: seq<T>, x: T)
    ensures Distinct(s + [x]) == Distinct(s) + (if x in s then [] else [x])
  {
    assert (s + [x])[..|s + [x]| - 1] == s;
  }

  /** Keeping the first occurrences of the filtered elements, one element at a time from the end. */
  lemma DistinctFilterLast<T>(s: seq<T>, pred: T -> bool)
    requires |s| > 0
    ensures var init, x := s[..|s| - 1], s[|s| - 1];
      Distinct(Filter(s, pred)) ==
      Distinct(Filter(init, pred)) + (if pred(x) && x !in Distinct(Filter(init, pred)) then [x] else [])
  {
    var init, x := s[..|s| - 1], s[|s| - 1];
    var f := Filter(init, pred);
    assert s == init + [x];
    FilterSnoc(init, x, pred);
    if pred(x) {
      assert Filter(s, pred) == f + [x];
      DistinctSnoc(f, x);
    } else {
      assert Filter(s, pred) == f;
    }
  }
}
