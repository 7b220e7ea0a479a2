// Order-preserving subsequences: the relation between a simplified polyline
// and the polyline it was taken from.

module Seqs {

  /**
   * a can be obtained from b by deleting elements, keeping the order of the
   * rest. Defined from the back, the end where the source's loops append.
   */
  ghost predicate Subseq<T>(a: seq<T>, b: seq<T>)
    decreases |b|, 1
  {
    |a| == 0 || (|b| > 0 && SubseqBack(a, b))
  }

  /** A non-empty a is a subsequence of a non-empty b: either the last elements pair up, or b's last is dropped. */
  ghost predicate SubseqBack<T>(a: seq<T>, b: seq<T>)
    requires |a| > 0 && |b| > 0
    decreases |b|, 0
  {
    (a[|a| - 1] == b[|b| - 1] && Subseq(a[..|a| - 1], b[..|b| - 1])) ||
    Subseq(a, b[..|b| - 1])
  }

  lemma {:induction false} SubseqLength<T>(a: seq<T>, b: seq<T>)
    requires Subseq(a, b)
    ensures |a| <= |b|
    decreases |b|
  {
    if |a| > 0 {
      if a[|a| - 1] == b[|b| - 1] && Subseq(a[..|a| - 1], b[..|b| - 1]) {
        SubseqLength(a[..|a| - 1], b[..|b| - 1]);
      } else {
        SubseqLength(a, b[..|b| - 1]);
      }
    }
  }

  lemma {:induction false} SubseqRefl<T>(a: seq<T>)
    ensures Subseq(a, a)
    decreases |a|
  {
    if |a| > 0 {
      SubseqRefl(a[..|a| - 1]);
    }
  }

  /** Appending one element to both sides keeps the relation. */
  lemma SubseqSnoc<T>(a: seq<T>, b: seq<T>, x: T)
    requires Subseq(a, b)
    ensures Subseq(a + [x], b + [x])
  {
    assert (a + [x])[..|a|] == a;
    assert (b + [x])[..|b|] == b;
  }

  /** Appending elements to the larger side only keeps the relation. */
  lemma {:induction false} SubseqExtend<T>(a: seq<T>, b: seq<T>, c: seq<T>)
    requires Subseq(a, b)
    ensures Subseq(a, b + c)
    decreases |c|
  {
    if |c| > 0 {
      SubseqExtend(a, b, c[..|c| - 1]);
      var bc := b + c;
      assert bc[..|bc| - 1] == b + c[..|c| - 1];
      assert Subseq(a, bc[..|bc| - 1]);
    } else {
      assert b + c == b;
    }
  }

  lemma {:induction false} SubseqConcat<T>(a1: seq<T>, b1: seq<T>, a2: seq<T>, b2: seq<T>)
    requires Subseq(a1, b1) && Subseq(a2, b2)
    ensures Subseq(a1 + a2, b1 + b2)
    decreases |b2|
  {
    if |a2| == 0 {
      assert a1 + a2 == a1;
      SubseqExtend(a1, b1, b2);
    } else {
      var a2', b2' := a2[..|a2| - 1], b2[..|b2| - 1];
      assert (b1 + b2)[..|b1 + b2| - 1] == b1 + b2';
      if a2[|a2| - 1] == b2[|b2| - 1] && Subseq(a2', b2') {
        SubseqConcat(a1, b1, a2', b2');
        assert (a1 + a2)[..|a1 + a2| - 1] == a1 + a2';
      } else {
        SubseqConcat(a1, b1, a2, b2');
      }
    }
  }

  /** Dropping the last element of both sides keeps the relation. */
  lemma {:induction false} SubseqDropLast<T>(a: seq<T>, b: seq<T>)
    requires |a| > 0 && Subseq(a, b)
    ensures |b| > 0 && Subseq(a[..|a| - 1], b[..|b| - 1])
    decreases |b|
  {
    if !(a[|a| - 1] == b[|b| - 1] && Subseq(a[..|a| - 1], b[..|b| - 1])) {
      var b' := b[..|b| - 1];
      SubseqDropLast(a, b');
      assert b'[..|b'| - 1] + [b'[|b'| - 1]] == b';
      SubseqExtend(a[..|a| - 1], b'[..|b'| - 1], [b'[|b'| - 1]]);
    }
  }

  /** A sequence of two or more elements contains its own first and last as a subsequence. */
  lemma SubseqEnds<T>(b: seq<T>)
    requires |b| >= 2
    ensures Subseq([b[0], b[|b| - 1]], b)
  {
    var b' := b[..|b| - 1];
    assert Subseq([b[0]][..0], b[..1][..0]);
    assert Subseq([b[0]], b[..1]);
    assert b[..1] + b'[1..] == b';
    SubseqExtend([b[0]], b[..1], b'[1..]);
    SubseqSnoc([b[0]], b', b[|b| - 1]);
    assert b' + [b[|b| - 1]] == b;
    assert [b[0]] + [b[|b| - 1]] == [b[0], b[|b| - 1]];
  }

  lemma {:induction false} SubseqTrans<T>(a: seq<T>, b: seq<T>, c: seq<T>)
    requires Subseq(a, b) && Subseq(b, c)
    ensures Subseq(a, c)
    decreases |c|
  {
    if |a| > 0 {
      SubseqLength(a, b);
      if b[|b| - 1] == c[|c| - 1] && Subseq(b[..|b| - 1], c[..|c| - 1]) {
        if a[|a| - 1] == b[|b| - 1] && Subseq(a[..|a| - 1], b[..|b| - 1]) {
          SubseqTrans(a[..|a| - 1], b[..|b| - 1], c[..|c| - 1]);
        } else {
          SubseqTrans(a, b[..|b| - 1], c[..|c| - 1]);
        }
      } else {
        SubseqTrans(a, b, c[..|c| - 1]);
      }
    }
  }

  /**
   * Joining the pieces kept from c[..k+1] and from c[k..], with the shared
   * point c[k] written once, gives a subsequence of c.
   */
  lemma SubseqSplice<T>(c: seq<T>, k: nat, left: seq<T>, right: seq<T>)
    requires k < |c| && |left| > 0
    requires Subseq(left, c[..k + 1]) && Subseq(right, c[k..])
    ensures Subseq(left[..|left| - 1] + right, c)
  {
    SubseqDropLast(left, c[..k + 1]);
    assert c[..k + 1][..k] == c[..k];
    SubseqConcat(left[..|left| - 1], c[..k], right, c[k..]);
    assert c[..k] + c[k..] == c;
  }

  /** Moving the head of the suffix onto the end of the prefix leaves the whole unchanged. */
  lemma ShiftOne<T>(prefix: seq<T>, x: T, rest: seq<T>, whole: seq<T>)
    requires prefix + ([x] + rest) == whole
    ensures (prefix + [x]) + rest == whole
  {
    assert prefix + ([x] + rest) == (prefix + [x]) + rest;
  }

  /** Joining two pairs, each dropping the last element of its left part, keeps the relation. */
  lemma SubseqJoin<T>(a1: seq<T>, b1: seq<T>, a2: seq<T>, b2: seq<T>)
    requires |a1| > 0 && Subseq(a1, b1) && Subseq(a2, b2)
    ensures |b1| > 0 && Subseq(a1[..|a1| - 1] + a2, b1[..|b1| - 1] + b2)
  {
    SubseqDropLast(a1, b1);
    SubseqConcat(a1[..|a1| - 1], b1[..|b1| - 1], a2, b2);
  }

  /**
   * A subsequence of c up to index last stays one up to a later index k,
   * with or without c[k] appended.
   */
  lemma SubseqPick<T>(a: seq<T>, c: seq<T>, last: nat, k: nat)
    requires last < k < |c| && Subseq(a, c[..last + 1])
    ensures Subseq(a, c[..k + 1]) && Subseq(a + [c[k]], c[..k + 1])
  {
    assert c[..k] == c[..last + 1] + c[last + 1..k];
    SubseqExtend(a, c[..last + 1], c[last + 1..k]);
    SubseqSnoc(a, c[..k], c[k]);
    assert c[..k] + [c[k]] == c[..k + 1];
    SubseqExtend(a, c[..k], [c[k]]);
  }

  // ---------------------------------------------------------- flattening

  /** The parts joined in order. */
  function Flatten<T>(parts: seq<seq<T>>): seq<T>
  {
    if parts == [] then [] else Flatten(parts[..|parts| - 1]) + parts[|parts| - 1]
  }

  /** An element is in the joined sequence exactly when it is in one of the parts. */
  lemma {:induction false} FlattenMember<T>(parts: seq<seq<T>>, x: T)
    ensures x in Flatten(parts) <==> exists k :: 0 <= k < |parts| && x in parts[k]
  {
    if parts != [] {
      var init := parts[..|parts| - 1];
      FlattenMember(init, x);
      assert forall k :: 0 <= k < |init| ==> init[k] == parts[k];
    }
  }

  lemma FlattenSnoc<T>(parts: seq<seq<T>>, j: nat)
    requires j < |parts|
    ensures Flatten(parts[..j + 1]) == Flatten(parts[..j]) + parts[j]
  {
    assert parts[..j + 1][..j] == parts[..j];
  }
}
