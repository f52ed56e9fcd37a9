/** Optional values: the model's stand-in for a JavaScript `null` or `undefined`. */
module Wrappers {
  datatype Option<+T> = None | Some(value: T)
}

/** `Array.prototype.filter`, with the facts the editor and the saved-idea list rely on. */
module Seqs {

  /** The elements of `s` for which `keep` holds, in their original order. */
  function Filter<T>(s: seq<T>, keep: T -> bool): (r: seq<T>)
    ensures |r| <= |s|
    ensures forall k :: 0 <= k < |r| ==> r[k] in s && keep(r[k])
    ensures forall k :: 0 <= k < |s| && keep(s[k]) ==> s[k] in r
    ensures multiset(r) <= multiset(s)
  {
    if s == [] then []
    else
      assert s == [s[0]] + s[1..];
      (if keep(s[0]) then [s[0]] else []) + Filter(s[1..], keep)
  }

  /** Each value occurs in the result exactly as often as in the input when kept, and never
      otherwise: the filter drops nothing it keeps and duplicates nothing. */
  lemma {:induction false} FilterCount<T>(s: seq<T>, keep: T -> bool, x: T)
    ensures multiset(Filter(s, keep))[x] == if keep(x) then multiset(s)[x] else 0
  {
    if s != [] {
      assert s == [s[0]] + s[1..];
      FilterCount(s[1..], keep, x);
    }
  }

  /** Filtering distributes over concatenation. */
  lemma {:induction false} FilterAppend<T>(a: seq<T>, b: seq<T>, keep: T -> bool)
    ensures Filter(a + b, keep) == Filter(a, keep) + Filter(b, keep)
  {
    if a == [] {
      assert a + b == b;
    } else {
      assert (a + b)[0] == a[0];
      assert (a + b)[1..] == a[1..] + b;
      FilterAppend(a[1..], b, keep);
    }
  }

  /** A filter that rejects nothing returns its input. */
  lemma {:induction false} FilterKeepsAll<T>(s: seq<T>, keep: T -> bool)
    requires forall i :: 0 <= i < |s| ==> keep(s[i])
    ensures Filter(s, keep) == s
  {
    if s != [] {
      FilterKeepsAll(s[1..], keep);
    }
  }

  /** A kept element `s[i]` lands at the position given by the number of kept elements before it. */
  lemma FilterAt<T>(s: seq<T>, keep: T -> bool, i: int)
    requires 0 <= i < |s| && keep(s[i])
    ensures |Filter(s[..i], keep)| < |Filter(s, keep)|
    ensures Filter(s, keep)[|Filter(s[..i], keep)|] == s[i]
  {
    assert s == s[..i] + s[i..];
    FilterAppend(s[..i], s[i..], keep);
    assert Filter(s[i..], keep) == [s[i]] + Filter(s[i + 1..], keep) by {
      assert s[i..][0] == s[i];
      assert s[i..][1..] == s[i + 1..];
    }
  }

  /** Kept elements keep their relative order: the earlier one lands strictly earlier. */
  lemma FilterPreservesOrder<T>(s: seq<T>, keep: T -> bool, i: int, j: int)
    requires 0 <= i < j < |s| && keep(s[i]) && keep(s[j])
    ensures |Filter(s[..i], keep)| < |Filter(s[..j], keep)| < |Filter(s, keep)|
    ensures Filter(s, keep)[|Filter(s[..i], keep)|] == s[i]
    ensures Filter(s, keep)[|Filter(s[..j], keep)|] == s[j]
  {
    FilterAt(s, keep, i);
    FilterAt(s, keep, j);
    assert s[..j] == s[..i] + s[i..j];
    FilterAppend(s[..i], s[i..j], keep);
    assert Filter(s[i..j], keep) == [s[i]] + Filter(s[i + 1..j], keep) by {
      assert s[i..j][0] == s[i];
      assert s[i..j][1..] == s[i + 1..j];
    }
  }
}
