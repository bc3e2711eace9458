/** Which positions of a list a filter keeps. `[x for x in xs if p(x)]` keeps, in order, the
    elements at the positions this module computes; the filtering functions of the model are
    specified through it. */
module Filters {

  /** The positions lo <= k < hi at which `p` holds, in increasing order (`WhereExactly`). */
  function Where(p: nat -> bool, lo: nat, hi: nat): (ix: seq<nat>)
    ensures forall i :: 0 <= i < |ix| ==> lo <= ix[i] < hi
    decreases hi - lo
  {
    if lo >= hi then [] else (if p(lo) then [lo] else []) + Where(p, lo + 1, hi)
  }

  /** `Where` lists, in increasing order, the positions of the range where `p` holds and no
      others. Those facts pin the list down (`WhereUnique`). */
  lemma WhereExactly(p: nat -> bool, lo: nat, hi: nat)
    ensures var ix := Where(p, lo, hi);
            Increasing(ix) &&
            forall k :: lo <= k < hi ==> (k in ix <==> p(k))
  {
    WhereIncreasing(p, lo, hi);
    WhereMembers(p, lo, hi);
  }

  lemma {:induction false} WhereIncreasing(p: nat -> bool, lo: nat, hi: nat)
    ensures Increasing(Where(p, lo, hi))
    decreases hi - lo
  {
    if lo < hi && p(lo) {
      WhereIncreasing(p, lo + 1, hi);
      var rest := Where(p, lo + 1, hi);
      var ix := Where(p, lo, hi);
      assert ix == [lo] + rest;
      forall i, j | 0 <= i < j < |ix| ensures ix[i] < ix[j] {
        assert ix[j] == rest[j - 1];
        if i > 0 {
          assert ix[i] == rest[i - 1];
        }
      }
    } else if lo < hi {
      WhereIncreasing(p, lo + 1, hi);
    }
  }

  lemma {:induction false} WhereMembers(p: nat -> bool, lo: nat, hi: nat)
    ensures forall k :: lo <= k < hi ==> (k in Where(p, lo, hi) <==> p(k))
    decreases hi - lo
  {
    if lo < hi {
      WhereMembers(p, lo + 1, hi);
      var rest := Where(p, lo + 1, hi);
      assert Where(p, lo, hi) == (if p(lo) then [lo] else []) + rest;
      assert lo !in rest;
    }
  }

  predicate Increasing(ix: seq<nat>) {
    forall i, j :: 0 <= i < j < |ix| ==> ix[i] < ix[j]
  }

  /** Extending the range by one position adds that position when `p` holds there. */
  lemma {:induction false} WhereSnoc(p: nat -> bool, lo: nat, hi: nat)
    requires lo <= hi
    ensures Where(p, lo, hi + 1) == Where(p, lo, hi) + if p(hi) then [hi] else []
    decreases hi - lo
  {
    if lo < hi {
      WhereSnoc(p, lo + 1, hi);
    }
  }

  /** Only the values of `p` inside the range matter. */
  lemma {:induction false} WhereAgree(p: nat -> bool, q: nat -> bool, lo: nat, hi: nat)
    requires forall k :: lo <= k < hi ==> p(k) == q(k)
    ensures Where(p, lo, hi) == Where(q, lo, hi)
    decreases hi - lo
  {
    if lo < hi {
      WhereAgree(p, q, lo + 1, hi);
    }
  }

  /** Any increasing list that holds exactly the positions in the range where `p` holds is
      `Where(p, lo, hi)`. */
  lemma {:induction false} WhereUnique(p: nat -> bool, lo: nat, hi: nat, ix: seq<nat>)
    requires forall i :: 0 <= i < |ix| ==> lo <= ix[i] < hi
    requires Increasing(ix)
    requires forall k :: lo <= k < hi ==> (k in ix <==> p(k))
    ensures ix == Where(p, lo, hi)
    decreases hi - lo
  {
    if ix != [] {
      assert lo <= ix[0] < hi;
    }
    if lo < hi {
      if p(lo) {
        HeadKept(p, lo, hi, ix);
        WhereUnique(p, lo + 1, hi, ix[1..]);
        assert ix == [lo] + ix[1..];
      } else {
        HeadSkipped(p, lo, hi, ix);
        WhereUnique(p, lo + 1, hi, ix);
      }
    }
  }

  /** When `p` holds at `lo`, such a list starts with `lo` and its tail covers the rest. */
  lemma HeadKept(p: nat -> bool, lo: nat, hi: nat, ix: seq<nat>)
    requires lo < hi && p(lo)
    requires forall i :: 0 <= i < |ix| ==> lo <= ix[i] < hi
    requires Increasing(ix)
    requires forall k :: lo <= k < hi ==> (k in ix <==> p(k))
    ensures ix != [] && ix[0] == lo
    ensures forall i :: 0 <= i < |ix[1..]| ==> lo + 1 <= ix[1..][i] < hi
    ensures Increasing(ix[1..])
    ensures forall k :: lo + 1 <= k < hi ==> (k in ix[1..] <==> p(k))
  {
    assert lo in ix;
    var i0 :| 0 <= i0 < |ix| && ix[i0] == lo;
    assert lo <= ix[0] && ix[i0] == lo;
    var rest := ix[1..];
    forall i | 0 <= i < |rest| ensures lo + 1 <= rest[i] < hi {
      assert rest[i] == ix[i + 1] && ix[0] < ix[i + 1];
    }
    forall k | lo + 1 <= k < hi ensures k in rest <==> k in ix {
      if k in ix {
        var i :| 0 <= i < |ix| && ix[i] == k;
        assert rest[i - 1] == k;
      }
    }
  }

  /** When `p` fails at `lo`, such a list already covers the range from `lo + 1`. */
  lemma HeadSkipped(p: nat -> bool, lo: nat, hi: nat, ix: seq<nat>)
    requires lo < hi && !p(lo)
    requires forall i :: 0 <= i < |ix| ==> lo <= ix[i] < hi
    requires forall k :: lo <= k < hi ==> (k in ix <==> p(k))
    ensures forall i :: 0 <= i < |ix| ==> lo + 1 <= ix[i] < hi
  {
    forall i | 0 <= i < |ix| ensures lo + 1 <= ix[i] < hi {
      assert ix[i] in ix;
    }
  }
}
