/** The sequence idioms the model builds its pipelines from: map, all-or-nothing collection, filter-after-map and find. */
module Sequences {
  import opened Wrappers

  /** The present values of `s`, in order: `.filter(x => x != null)` after a `.map`. */
  function Compact<T>(s: seq<Option<T>>): (r: seq<T>)
    ensures |r| <= |s|
    ensures r == [] <==> forall i :: 0 <= i < |s| ==> s[i].None?
    ensures |r| == |s| <==> forall i :: 0 <= i < |s| ==> s[i].Some?
  {
    if s == [] then []
    else
      var rest := Compact(s[1..]);
      assert forall i :: 1 <= i < |s| ==> s[i] == s[1..][i - 1];
      if s[0].Some? then [s[0].value] + rest else rest
  }

  /** `f` applied to every element, in order. */
  function Map<A, B>(f: A -> B, s: seq<A>): seq<B> {
    seq(|s|, i requires 0 <= i < |s| => f(s[i]))
  }

  /** Mapping a concatenation maps each part. */
  lemma MapAppend<A, B>(f: A -> B, a: seq<A>, b: seq<A>)
    ensures Map(f, a + b) == Map(f, a) + Map(f, b)
  {
    forall i | 0 <= i < |a + b|
      ensures Map(f, a + b)[i] == (Map(f, a) + Map(f, b))[i]
    {
      if i < |a| {
        assert (a + b)[i] == a[i];
      } else {
        assert (a + b)[i] == b[i - |a|];
      }
    }
  }

  /** All the values, when every element is present; nothing when one is missing. */
  function AllSome<T>(s: seq<Option<T>>): (r: Option<seq<T>>)
    ensures r.Some? <==> forall i :: 0 <= i < |s| ==> s[i].Some?
    ensures r.Some? ==> |r.value| == |s| && forall i :: 0 <= i < |s| ==> r.value[i] == s[i].value
  {
    if s == [] then Some([])
    else
      assert forall i :: 1 <= i < |s| ==> s[i] == s[1..][i - 1];
      match (s[0], AllSome(s[1..]))
      case (Some(x), Some(xs)) =>
        assert forall i :: 1 <= i < |s| ==> ([x] + xs)[i] == xs[i - 1];
        Some([x] + xs)
      case _ => None
  }

  /** Filtering a non-empty sequence: its head, if present, then the filtered tail. */
  lemma CompactCons<T>(s: seq<Option<T>>)
    requires s != []
    ensures Compact(s) == (if s[0].Some? then [s[0].value] else []) + Compact(s[1..])
  {
  }

  /** Filtering a concatenation filters each part and keeps the parts in order. */
  lemma {:induction false} CompactAppend<T>(a: seq<Option<T>>, b: seq<Option<T>>)
    ensures Compact(a + b) == Compact(a) + Compact(b)
  {
    if a != [] {
      assert (a + b)[0] == a[0];
      assert (a + b)[1..] == a[1..] + b;
      CompactAppend(a[1..], b);
      var h := if a[0].Some? then [a[0].value] else [];
      assert Compact(a + b) == h + Compact(a[1..] + b);
      assert Compact(a) == h + Compact(a[1..]);
    } else {
      assert a + b == b;
    }
  }

  /** A value survives exactly when it was present somewhere in the input. */
  lemma {:induction false} CompactMember<T>(s: seq<Option<T>>, x: T)
    ensures x in Compact(s) <==> exists i :: 0 <= i < |s| && s[i] == Some(x)
  {
    if s != [] {
      CompactMember(s[1..], x);
      assert forall i :: 1 <= i < |s| ==> s[i] == s[1..][i - 1];
      if exists i :: 0 <= i < |s| && s[i] == Some(x) {
        var i :| 0 <= i < |s| && s[i] == Some(x);
        if i > 0 { assert s[1..][i - 1] == Some(x); }
      }
    }
  }

  /** Index of the first element satisfying `p`: `Array.prototype.find` / `findIndex`. */
  function FirstIndex<T>(s: seq<T>, p: T -> bool): (r: Option<nat>)
    ensures r.Some? ==> r.value < |s| && p(s[r.value])
    ensures r.Some? ==> forall j :: 0 <= j < r.value ==> !p(s[j])
    ensures r.None? <==> forall j :: 0 <= j < |s| ==> !p(s[j])
  {
    if s == [] then None
    else if p(s[0]) then Some(0)
    else
      match FirstIndex(s[1..], p)
      case None => None
      case Some(i) => Some(i + 1)
  }
}
