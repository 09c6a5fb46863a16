/** `Array.prototype.filter`: the order-preserving sub-list of the elements a
    predicate keeps. The three client-side search and ownership filters are
    instances of it. */
module Lists {

  function Filter<T>(s: seq<T>, keep: T -> bool): (r: seq<T>)
    ensures |r| <= |s|
    ensures forall k :: 0 <= k < |r| ==> keep(r[k])
  {
    if s == [] then []
    else (if keep(s[0]) then [s[0]] else []) + Filter(s[1..], keep)
  }

  ghost predicate Increasing(idx: seq<int>) {
    forall a, b :: 0 <= a < b < |idx| ==> idx[a] < idx[b]
  }

  /** `r` is the sub-list of `s` at the strictly increasing positions `idx`. */
  ghost predicate SelectedBy<T>(r: seq<T>, s: seq<T>, idx: seq<int>) {
    && |idx| == |r|
    && Increasing(idx)
    && forall k :: 0 <= k < |idx| ==> 0 <= idx[k] < |s| && r[k] == s[idx[k]]
  }

  /** Positions in the tail of `s`, moved one place right, are positions in `s`. */
  lemma Shifted<T>(r: seq<T>, s: seq<T>, tail: seq<int>) returns (idx: seq<int>)
    requires s != [] && SelectedBy(r, s[1..], tail)
    ensures SelectedBy(r, s, idx) && 0 !in idx
    ensures forall i :: 1 <= i < |s| ==> (i in idx <==> i - 1 in tail)
  {
    idx := seq(|tail|, k requires 0 <= k < |tail| => tail[k] + 1);
    forall i | 1 <= i < |s|
      ensures i in idx <==> i - 1 in tail
    {
      if i - 1 in tail {
        var k :| 0 <= k < |tail| && tail[k] == i - 1;
        assert idx[k] == i;
      }
    }
  }

  /** Keeping the head of `s` adds position 0 in front. */
  lemma Prepended<T>(r: seq<T>, s: seq<T>, idx: seq<int>)
    requires s != [] && SelectedBy(r, s, idx) && 0 !in idx
    ensures SelectedBy([s[0]] + r, s, [0] + idx)
  {
    var r', idx' := [s[0]] + r, [0] + idx;
    forall a, b | 0 <= a < b < |idx'|
      ensures idx'[a] < idx'[b]
    {
      if a > 0 {
        assert idx'[a] == idx[a - 1] && idx'[b] == idx[b - 1];
      } else {
        assert idx'[b] == idx[b - 1] && idx[b - 1] != 0;
      }
    }
  }

  /** The filtered list is the sub-list of `s`, in the original order, at
      exactly the positions whose element the predicate keeps. */
  lemma {:induction false} FilterSelects<T>(s: seq<T>, keep: T -> bool) returns (idx: seq<int>)
    ensures SelectedBy(Filter(s, keep), s, idx)
    ensures forall i :: 0 <= i < |s| ==> (keep(s[i]) <==> i in idx)
  {
    if s == [] {
      idx := [];
    } else {
      var rest := Filter(s[1..], keep);
      var tail := FilterSelects(s[1..], keep);
      var shifted := Shifted(rest, s, tail);
      assert forall i :: 1 <= i < |s| ==> s[i] == s[1..][i - 1];
      if keep(s[0]) {
        Prepended(rest, s, shifted);
        idx := [0] + shifted;
        assert Filter(s, keep) == [s[0]] + rest;
        assert forall i :: 1 <= i < |s| ==> (i in idx <==> i in shifted);
      } else {
        idx := shifted;
        assert Filter(s, keep) == rest;
      }
    }
  }

  /** A predicate that keeps everything leaves the list as it is. */
  lemma {:induction false} FilterKeepsAll<T>(s: seq<T>, keep: T -> bool)
    requires forall k :: 0 <= k < |s| ==> keep(s[k])
    ensures Filter(s, keep) == s
  {
    if s != [] {
      FilterKeepsAll(s[1..], keep);
    }
  }

  /** Filtering with two predicates that agree on every element gives the
      same list. */
  lemma {:induction false} FilterSameOn<T>(s: seq<T>, f: T -> bool, g: T -> bool)
    requires forall k :: 0 <= k < |s| ==> f(s[k]) == g(s[k])
    ensures Filter(s, f) == Filter(s, g)
  {
    if s != [] {
      FilterSameOn(s[1..], f, g);
    }
  }
}
