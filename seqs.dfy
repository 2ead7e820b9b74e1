/** `Array.prototype.find` and `Array.prototype.filter` on sequences and the facts the model needs
    about it: which elements survive, that order and pairwise relations are
    kept, and that nothing changes when every element passes. */
module Seqs {
  import opened Options

  /** `Array.prototype.find`, as the index of the first element that passes. */
  function FindIndex<T>(s: seq<T>, test: T -> bool): (r: Option<nat>)
    ensures r.Some? ==> r.value < |s| && test(s[r.value])
    ensures r.Some? ==> forall i :: 0 <= i < r.value ==> !test(s[i])
    ensures r.None? <==> forall i :: 0 <= i < |s| ==> !test(s[i])
    decreases |s|
  {
    if s == [] then None
    else if test(s[0]) then Some(0)
    else
      match FindIndex(s[1..], test)
      case None => None
      case Some(k) => Some(k + 1)
  }

  function Filter<T>(s: seq<T>, keep: T -> bool): (r: seq<T>)
    ensures |r| <= |s|
    decreases |s|
  {
    if s == [] then []
    else if keep(s[0]) then [s[0]] + Filter(s[1..], keep)
    else Filter(s[1..], keep)
  }

  /** An element survives exactly when it was there and passes the test. */
  lemma {:induction false} FilterMembership<T>(s: seq<T>, keep: T -> bool, x: T)
    ensures x in Filter(s, keep) <==> x in s && keep(x)
    decreases |s|
  {
    if s != [] {
      FilterMembership(s[1..], keep, x);
      assert s == [s[0]] + s[1..];
    }
  }

  /** When every element passes, the filter returns its input unchanged. */
  lemma {:induction false} FilterKeepsAll<T>(s: seq<T>, keep: T -> bool)
    requires forall i :: 0 <= i < |s| ==> keep(s[i])
    ensures Filter(s, keep) == s
    decreases |s|
  {
    if s != [] {
      FilterKeepsAll(s[1..], keep);
      assert s == [s[0]] + s[1..];
    }
  }

  /** Two tests that agree on every element filter alike. */
  lemma {:induction false} FilterSameTest<T>(s: seq<T>, p: T -> bool, q: T -> bool)
    requires forall i :: 0 <= i < |s| ==> p(s[i]) == q(s[i])
    ensures Filter(s, p) == Filter(s, q)
    decreases |s|
  {
    if s != [] {
      FilterSameTest(s[1..], p, q);
    }
  }

  /** When no element passes, the result is empty. */
  lemma {:induction false} FilterDropsAll<T>(s: seq<T>, keep: T -> bool)
    requires forall i :: 0 <= i < |s| ==> !keep(s[i])
    ensures Filter(s, keep) == []
    decreases |s|
  {
    if s != [] {
      FilterDropsAll(s[1..], keep);
    }
  }

  /** Filtering distributes over concatenation, so the survivors keep the
      order they had. */
  lemma {:induction false} FilterAppend<T>(a: seq<T>, b: seq<T>, keep: T -> bool)
    ensures Filter(a + b, keep) == Filter(a, keep) + Filter(b, keep)
    decreases |a|
  {
    if a == [] {
      assert a + b == b;
    } else {
      assert (a + b)[0] == a[0] && (a + b)[1..] == a[1..] + b;
      FilterAppend(a[1..], b, keep);
    }
  }

  /** A relation that holds between every earlier and every later element
      still holds after filtering. */
  lemma {:induction false} FilterPairwise<T>(s: seq<T>, keep: T -> bool, rel: (T, T) -> bool)
    requires forall i, j :: 0 <= i < j < |s| ==> rel(s[i], s[j])
    ensures forall i, j :: 0 <= i < j < |Filter(s, keep)| ==> rel(Filter(s, keep)[i], Filter(s, keep)[j])
    decreases |s|
  {
    if s != [] {
      var tail := s[1..];
      assert forall i, j :: 0 <= i < j < |tail| ==> rel(tail[i], tail[j]) by {
        forall i, j | 0 <= i < j < |tail| ensures rel(tail[i], tail[j]) {
          assert tail[i] == s[i + 1] && tail[j] == s[j + 1];
        }
      }
      FilterPairwise(tail, keep, rel);
      var ft := Filter(tail, keep);
      if keep(s[0]) {
        var r := Filter(s, keep);
        assert r == [s[0]] + ft;
        forall i, j | 0 <= i < j < |r| ensures rel(r[i], r[j]) {
          if i == 0 {
            assert r[j] == ft[j - 1];
            assert ft[j - 1] in ft;
            FilterMembership(tail, keep, ft[j - 1]);
            var k :| 0 <= k < |tail| && tail[k] == ft[j - 1];
            assert s[k + 1] == tail[k];
          } else {
            assert r[i] == ft[i - 1] && r[j] == ft[j - 1];
          }
        }
      }
    }
  }
}
