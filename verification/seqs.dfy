/** Order-preserving filtering and first-match search over sequences: the
    model's counterparts of JavaScript's `Array.prototype.filter` and `find`. */
module Seqs {
  import opened Wrappers

  /** The elements of `s` that satisfy `keep`, in their original order. */
  function Filter<T(!new)>(s: seq<T>, keep: T -> bool): (r: seq<T>)
    ensures |r| <= |s|
    ensures forall x :: x in r <==> x in s && keep(x)
    decreases |s|
  {
    if |s| == 0 then []
    else
      assert s == [s[0]] + s[1..];
      if keep(s[0]) then [s[0]] + Filter(s[1..], keep) else Filter(s[1..], keep)
  }

  /** Index of the first element of `s` that satisfies `p`, if any. */
  function FindFirst<T>(s: seq<T>, p: T -> bool): (r: Option<nat>)
    ensures r.None? <==> forall i :: 0 <= i < |s| ==> !p(s[i])
    ensures r.Some? ==> r.value < |s| && p(s[r.value])
    ensures r.Some? ==> forall j :: 0 <= j < r.value ==> !p(s[j])
    decreases |s|
  {
    if |s| == 0 then None
    else if p(s[0]) then Some(0)
    else
      match FindFirst(s[1..], p)
      case None => None
      case Some(k) => Some(k + 1)
  }

  /** No two positions of `s` carry the same key. */
  ghost predicate DistinctKeys<T, K>(s: seq<T>, key: T -> K) {
    forall i, j :: 0 <= i < j < |s| ==> key(s[i]) != key(s[j])
  }

  /** Filtering a concatenation filters each part: the kept elements keep their order. */
  lemma {:induction false} FilterAppend<T(!new)>(a: seq<T>, b: seq<T>, keep: T -> bool)
    ensures Filter(a + b, keep) == Filter(a, keep) + Filter(b, keep)
    decreases |a|
  {
    if |a| == 0 {
      assert a + b == b;
    } else {
      assert (a + b)[1..] == a[1..] + b;
      FilterAppend(a[1..], b, keep);
    }
  }

  /** A filter that rejects nothing returns its input unchanged. */
  lemma {:induction false} FilterKeepsAll<T(!new)>(s: seq<T>, keep: T -> bool)
    requires forall i :: 0 <= i < |s| ==> keep(s[i])
    ensures Filter(s, keep) == s
    decreases |s|
  {
    if |s| > 0 {
      FilterKeepsAll(s[1..], keep);
    }
  }

  /** The filter keeps every element exactly when every element passes it. */
  lemma {:induction false} FilterFullIff<T(!new)>(s: seq<T>, keep: T -> bool)
    ensures |Filter(s, keep)| == |s| <==> forall i :: 0 <= i < |s| ==> keep(s[i])
    decreases |s|
  {
    if |s| > 0 {
      FilterFullIff(s[1..], keep);
      if !keep(s[0]) {
        assert |Filter(s, keep)| <= |s| - 1;
      } else if forall i :: 0 <= i < |s[1..]| ==> keep(s[1..][i]) {
        assert forall i :: 0 <= i < |s| ==> keep(s[i]) by {
          forall i | 0 <= i < |s| ensures keep(s[i]) {
            if i > 0 { assert s[i] == s[1..][i - 1]; }
          }
        }
      }
    }
  }

  /** The filter is empty exactly when no element passes it. */
  lemma {:induction false} FilterEmptyIff<T(!new)>(s: seq<T>, keep: T -> bool)
    ensures |Filter(s, keep)| == 0 <==> forall i :: 0 <= i < |s| ==> !keep(s[i])
  {
    if |Filter(s, keep)| > 0 {
      assert Filter(s, keep)[0] in Filter(s, keep);
    }
  }

  /** A property holds of every kept element exactly when it holds of every
      element of the input that passes the filter. */
  lemma {:induction false} FilterForall<T(!new)>(s: seq<T>, keep: T -> bool, p: T -> bool)
    ensures (forall i :: 0 <= i < |Filter(s, keep)| ==> p(Filter(s, keep)[i]))
            <==> (forall i :: 0 <= i < |s| && keep(s[i]) ==> p(s[i]))
  {
    var f := Filter(s, keep);
    var kept := forall i :: 0 <= i < |f| ==> p(f[i]);
    var passing := forall i :: 0 <= i < |s| && keep(s[i]) ==> p(s[i]);
    if kept {
      forall i | 0 <= i < |s| && keep(s[i]) ensures p(s[i]) {
        assert s[i] in f;
      }
    }
    if passing {
      forall i | 0 <= i < |f| ensures p(f[i]) {
        assert f[i] in f;
        assert f[i] in s && keep(f[i]);
        var j :| 0 <= j < |s| && s[j] == f[i];
        assert keep(s[j]);
      }
    }
    assert kept <==> passing;
  }

  /** Filtering twice with the same test is filtering once. */
  lemma FilterIdempotent<T(!new)>(s: seq<T>, keep: T -> bool)
    ensures Filter(Filter(s, keep), keep) == Filter(s, keep)
  {
    var f := Filter(s, keep);
    assert forall i :: 0 <= i < |f| ==> keep(f[i]) by {
      forall i | 0 <= i < |f| ensures keep(f[i]) { assert f[i] in f; }
    }
    FilterKeepsAll(f, keep);
  }

  /** Filtering cannot create two elements with the same key. */
  lemma {:induction false} FilterDistinct<T(!new), K>(s: seq<T>, keep: T -> bool, key: T -> K)
    requires DistinctKeys(s, key)
    ensures DistinctKeys(Filter(s, keep), key)
    decreases |s|
  {
    if |s| > 0 {
      var rest := s[1..];
      assert DistinctKeys(rest, key) by {
        forall i, j | 0 <= i < j < |rest| ensures key(rest[i]) != key(rest[j]) {
          assert rest[i] == s[i + 1] && rest[j] == s[j + 1];
        }
      }
      FilterDistinct(rest, keep, key);
      if keep(s[0]) {
        var f := Filter(s, keep);
        var fr := Filter(rest, keep);
        assert f == [s[0]] + fr;
        forall i, j | 0 <= i < j < |f| ensures key(f[i]) != key(f[j]) {
          if i == 0 {
            assert f[j] == fr[j - 1];
            assert fr[j - 1] in rest;
            var k :| 0 <= k < |rest| && rest[k] == fr[j - 1];
            assert s[k + 1] == rest[k];
          } else {
            assert f[i] == fr[i - 1] && f[j] == fr[j - 1];
          }
        }
      }
    }
  }
}
