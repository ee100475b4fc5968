/** Python list slicing and the order-preserving subsequence relation. */
module Sequences {
  import opened Wrappers

  /** Python's `s[:stop]`: a negative `stop` counts back from the end, and a stop past either end is clamped. */
  function SlicePrefix<T>(s: seq<T>, stop: int): (r: seq<T>)
    ensures |r| <= |s| && r == s[..|r|]
    ensures stop >= 0 ==> |r| == Min(stop, |s|)
    ensures stop < 0 ==> |r| == Max(|s| + stop, 0)
  {
    if stop >= 0 then s[..Min(stop, |s|)] else s[..Max(|s| + stop, 0)]
  }

  /** `a` is `b` with some elements left out: nothing reordered, duplicated or invented. */
  predicate Subseq<T(==)>(a: seq<T>, b: seq<T>)
    decreases |b|
  {
    a == [] || (|b| > 0 && ((a[0] == b[0] && Subseq(a[1..], b[1..])) || Subseq(a, b[1..])))
  }

  lemma {:induction false} SubseqRefl<T>(a: seq<T>)
    ensures Subseq(a, a)
    decreases |a|
  {
    if a != [] {
      SubseqRefl(a[1..]);
    }
  }

  lemma {:induction false} SubseqLength<T>(a: seq<T>, b: seq<T>)
    requires Subseq(a, b)
    ensures |a| <= |b|
    decreases |b|
  {
    if a != [] {
      if a[0] == b[0] && Subseq(a[1..], b[1..]) {
        SubseqLength(a[1..], b[1..]);
      } else {
        SubseqLength(a, b[1..]);
      }
    }
  }

  lemma {:induction false} SubseqMembers<T>(a: seq<T>, b: seq<T>)
    requires Subseq(a, b)
    ensures forall x :: x in a ==> x in b
    decreases |b|
  {
    if a != [] {
      if a[0] == b[0] && Subseq(a[1..], b[1..]) {
        SubseqMembers(a[1..], b[1..]);
        assert a == [a[0]] + a[1..];
      } else {
        SubseqMembers(a, b[1..]);
      }
    }
  }

  /** Any prefix of a subsequence is a subsequence. */
  lemma {:induction false} SubseqPrefix<T>(a: seq<T>, b: seq<T>, n: nat)
    requires Subseq(a, b) && n <= |a|
    ensures Subseq(a[..n], b)
    decreases |b|
  {
    if n > 0 {
      if a[0] == b[0] && Subseq(a[1..], b[1..]) {
        SubseqPrefix(a[1..], b[1..], n - 1);
        assert a[..n][1..] == a[1..][..n - 1];
      } else {
        SubseqPrefix(a, b[1..], n);
      }
    }
  }

  lemma {:induction false} SubseqTrans<T>(a: seq<T>, b: seq<T>, c: seq<T>)
    requires Subseq(a, b) && Subseq(b, c)
    ensures Subseq(a, c)
    decreases |c|
  {
    if a != [] {
      SubseqLength(a, b);
      if b[0] == c[0] && Subseq(b[1..], c[1..]) {
        if a[0] == b[0] && Subseq(a[1..], b[1..]) {
          SubseqTrans(a[1..], b[1..], c[1..]);
        } else {
          SubseqTrans(a, b[1..], c[1..]);
        }
      } else {
        SubseqTrans(a, b, c[1..]);
      }
    }
  }

  /** The lists one after another, as repeated `list.extend` builds them. */
  function Concat<T>(ls: seq<seq<T>>): seq<T> {
    if ls == [] then [] else Concat(ls[..|ls| - 1]) + ls[|ls| - 1]
  }

  /** Every element of the concatenation comes from one of the lists, and every element of every
      list is in it. */
  lemma {:induction false} ConcatMembers<T>(ls: seq<seq<T>>)
    ensures forall x :: x in Concat(ls) <==> exists j :: 0 <= j < |ls| && x in ls[j]
    decreases |ls|
  {
    if ls != [] {
      var init := ls[..|ls| - 1];
      ConcatMembers(init);
      forall x
        ensures x in Concat(ls) <==> exists j :: 0 <= j < |ls| && x in ls[j]
      {
        if x in Concat(init) {
          var j :| 0 <= j < |init| && x in init[j];
          assert x in ls[j];
        }
        if j :| 0 <= j < |ls| && x in ls[j] {
          if j < |ls| - 1 {
            assert x in init[j];
          }
        }
      }
    }
  }

  /** The concatenation of empty lists is empty. */
  lemma {:induction false} ConcatEmpty<T>(ls: seq<seq<T>>)
    requires forall j :: 0 <= j < |ls| ==> ls[j] == []
    ensures Concat(ls) == []
    decreases |ls|
  {
    if ls != [] {
      ConcatEmpty(ls[..|ls| - 1]);
    }
  }
}
