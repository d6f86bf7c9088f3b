/** Sequence helpers: duplicate-free sequences, first-occurrence
    de-duplication (the model's enumeration of a Rust `HashSet`), and
    flattening (`flat_map` / `concat`). */
module Sequences {
  import opened Wrappers

  predicate NoDuplicates<T(==)>(s: seq<T>) {
    forall i, j :: 0 <= i < j < |s| ==> s[i] != s[j]
  }

  /** Keeps the first occurrence of every element, in input order. */
  function Dedup<T(==,!new)>(s: seq<T>): (r: seq<T>)
    ensures forall x :: x in r <==> x in s
    ensures NoDuplicates(r)
    ensures |r| <= |s|
  {
    if s == [] then []
    else
      var rest := Dedup(s[..|s| - 1]);
      assert forall x :: x in s <==> x in s[..|s| - 1] || x == s[|s| - 1] by {
        assert s == s[..|s| - 1] + [s[|s| - 1]];
      }
      if s[|s| - 1] in rest then rest else rest + [s[|s| - 1]]
  }

  /** The values that are present, in order (`filter_map` over options). */
  function Somes<T(==,!new)>(s: seq<Option<T>>): (r: seq<T>)
    ensures forall x :: x in r <==> Some(x) in s
    ensures |r| <= |s|
  {
    if s == [] then []
    else
      assert s == [s[0]] + s[1..];
      (if s[0].Some? then [s[0].value] else []) + Somes(s[1..])
  }

  /** Concatenates the pieces in order. */
  function Flatten<T>(ss: seq<seq<T>>): (r: seq<T>)
  {
    if ss == [] then [] else ss[0] + Flatten(ss[1..])
  }

  lemma {:induction false} FlattenLength<T>(ss: seq<seq<T>>, n: nat)
    requires forall i :: 0 <= i < |ss| ==> |ss[i]| == n
    ensures |Flatten(ss)| == n * |ss|
  {
    if ss != [] {
      FlattenLength(ss[1..], n);
    }
  }

  lemma {:induction false} FlattenAppend<T>(ss: seq<seq<T>>, x: seq<T>)
    ensures Flatten(ss + [x]) == Flatten(ss) + x
  {
    if ss == [] {
      assert [x][1..] == [];
    } else {
      assert (ss + [x])[1..] == ss[1..] + [x];
      FlattenAppend(ss[1..], x);
    }
  }
}
