/** Sorting by a tuple key; elements with equal keys keep their order. */
module StableSort {
  import opened Sequences

  /** A tuple of numbers, compared from the left. */
  type Key = seq<int>

  predicate Less(a: Key, b: Key) {
    b != [] && (a == [] || a[0] < b[0] || (a[0] == b[0] && Less(a[1..], b[1..])))
  }

  lemma {:induction false} LessIsTotal(a: Key, b: Key)
    ensures Less(a, b) || a == b || Less(b, a)
    ensures !(Less(a, b) && Less(b, a)) && !Less(a, a)
  {
    if a != [] && b != [] && a[0] == b[0] {
      LessIsTotal(a[1..], b[1..]);
      assert a == [a[0]] + a[1..] && b == [b[0]] + b[1..];
    }
    if a != [] { LessIsTotal(a[1..], a[1..]); }
  }

  lemma {:induction false} LessIsTransitive(a: Key, b: Key, c: Key)
    requires !Less(b, a) && !Less(c, b)
    ensures !Less(c, a)
  {
    if a != [] && b != [] && c != [] && a[0] == b[0] == c[0] {
      LessIsTransitive(a[1..], b[1..], c[1..]);
    }
  }

  /** A text as a key: compared by code points. */
  function Codes(s: string): Key {
    seq(|s|, i requires 0 <= i < |s| => s[i] as int)
  }

  lemma CodesDiffer(a: string, b: string)
    ensures Codes(a) == Codes(b) ==> a == b
  {
    if Codes(a) == Codes(b) {
      assert |a| == |Codes(a)| && |b| == |Codes(b)|;
      forall i | 0 <= i < |a| ensures a[i] == b[i] {
        assert Codes(a)[i] == Codes(b)[i];
      }
    }
  }

  lemma LessFromLeft(a: int, xs: Key, b: int, ys: Key)
    ensures Less([a] + xs, [b] + ys) <==> a < b || (a == b && Less(xs, ys))
  {
    assert ([a] + xs)[1..] == xs && ([b] + ys)[1..] == ys;
  }

  /** Text `a` comes before text `b`: where they part, it has ended or shows the smaller code point. */
  ghost predicate TextBefore(a: string, b: string) {
    exists k :: 0 <= k < |b| && k <= |a| && a[..k] == b[..k] && (k == |a| || a[k] < b[k])
  }

  lemma {:induction false} TextBeforeTail(a: string, b: string)
    requires a != "" && b != "" && a[0] == b[0]
    ensures TextBefore(a, b) <==> TextBefore(a[1..], b[1..])
  {
    if k :| 0 <= k < |b| && k <= |a| && a[..k] == b[..k] && (k == |a| || a[k] < b[k]) {
      assert k > 0 && a[1..][..k - 1] == a[..k][1..] == b[..k][1..] == b[1..][..k - 1];
      assert k - 1 < |b[1..]| && (k - 1 == |a[1..]| || a[1..][k - 1] < b[1..][k - 1]);
    }
    if k :| 0 <= k < |b[1..]| && k <= |a[1..]| && a[1..][..k] == b[1..][..k] && (k == |a[1..]| || a[1..][k] < b[1..][k]) {
      assert a[..k + 1] == [a[0]] + a[1..][..k] == [b[0]] + b[1..][..k] == b[..k + 1];
      assert k + 1 < |b| && (k + 1 == |a| || a[k + 1] < b[k + 1]);
    }
  }

  lemma PartAtOnce(a: string, b: string)
    requires a != "" && b != "" && a[0] != b[0]
    ensures TextBefore(a, b) <==> a[0] < b[0]
  {
    if a[0] < b[0] {
      assert a[..0] == b[..0];
    }
    forall k | 0 < k < |b| && k <= |a| ensures a[..k] != b[..k] {
      assert a[..k][0] == a[0] && b[..k][0] == b[0];
    }
  }

  /** Texts compared as keys are compared where they part. */
  lemma {:induction false} CodesCompare(a: string, b: string)
    ensures Less(Codes(a), Codes(b)) <==> TextBefore(a, b)
  {
    if a != "" && b != "" {
      var c, d := a[0] as int, b[0] as int;
      assert Codes(a) == [c] + Codes(a[1..]) && Codes(b) == [d] + Codes(b[1..]);
      LessFromLeft(c, Codes(a[1..]), d, Codes(b[1..]));
      if a[0] == b[0] {
        CodesCompare(a[1..], b[1..]);
        TextBeforeTail(a, b);
      } else {
        PartAtOnce(a, b);
      }
    } else {
      assert a == "" && b != "" ==> a[..0] == b[..0];
    }
  }

  function Insert<T>(xs: seq<(Key, T)>, x: (Key, T)): seq<(Key, T)> {
    if xs != [] && Less(x.0, Last(xs).0) then Insert(Front(xs), x) + [Last(xs)] else xs + [x]
  }

  function Sort<T>(xs: seq<(Key, T)>): seq<(Key, T)> {
    if xs == [] then [] else Insert(Sort(Front(xs)), Last(xs))
  }

  predicate Ascending<T>(xs: seq<(Key, T)>) {
    forall i, j :: 0 <= i < j < |xs| ==> !Less(xs[j].0, xs[i].0)
  }

  /** The elements with one key, in order. */
  function WithKey<T>(xs: seq<(Key, T)>, key: Key): seq<(Key, T)> {
    if xs == [] then []
    else if Last(xs).0 == key then WithKey(Front(xs), key) + [Last(xs)]
    else WithKey(Front(xs), key)
  }

  lemma WithKeySnoc<T>(xs: seq<(Key, T)>, x: (Key, T), key: Key)
    ensures WithKey(xs + [x], key) == if x.0 == key then WithKey(xs, key) + [x] else WithKey(xs, key)
  {
    assert Front(xs + [x]) == xs;
  }

  lemma {:induction false} InsertKeeps<T>(xs: seq<(Key, T)>, x: (Key, T))
    ensures multiset(Insert(xs, x)) == multiset(xs) + multiset{x}
  {
    if xs != [] && Less(x.0, Last(xs).0) {
      InsertKeeps(Front(xs), x);
      assert xs == Front(xs) + [Last(xs)];
    }
  }

  /** A key that is above all elements and above the new one is above all of them together. */
  lemma {:induction false} InsertBelow<T>(xs: seq<(Key, T)>, x: (Key, T), top: Key)
    requires !Less(top, x.0) && forall i :: 0 <= i < |xs| ==> !Less(top, xs[i].0)
    ensures forall i :: 0 <= i < |Insert(xs, x)| ==> !Less(top, Insert(xs, x)[i].0)
  {
    if xs != [] && Less(x.0, Last(xs).0) {
      InsertBelow(Front(xs), x, top);
    }
  }

  lemma {:induction false} InsertSorts<T>(xs: seq<(Key, T)>, x: (Key, T))
    requires Ascending(xs)
    ensures Ascending(Insert(xs, x))
  {
    if xs != [] && Less(x.0, Last(xs).0) {
      InsertSorts(Front(xs), x);
      LessIsTotal(x.0, Last(xs).0);
      InsertBelow(Front(xs), x, Last(xs).0);
      AscendingSnoc(Insert(Front(xs), x), Last(xs));
    } else {
      forall i | 0 <= i < |xs| ensures !Less(x.0, xs[i].0) {
        LessIsTotal(xs[i].0, xs[i].0);
        LessIsTransitive(xs[i].0, Last(xs).0, x.0);
      }
      AscendingSnoc(xs, x);
    }
  }

  lemma AscendingSnoc<T>(xs: seq<(Key, T)>, x: (Key, T))
    requires Ascending(xs) && forall i :: 0 <= i < |xs| ==> !Less(x.0, xs[i].0)
    ensures Ascending(xs + [x])
  {}

  /** Two elements with different keys can change places. */
  lemma SwapEnds<T>(xs: seq<(Key, T)>, a: (Key, T), b: (Key, T), key: Key)
    requires a.0 != b.0
    ensures WithKey(xs + [a] + [b], key) == WithKey(xs + [b] + [a], key)
  {
    WithKeySnoc(xs + [a], b, key);
    WithKeySnoc(xs + [b], a, key);
    WithKeySnoc(xs, a, key);
    WithKeySnoc(xs, b, key);
  }

  lemma {:induction false} InsertIsStable<T>(xs: seq<(Key, T)>, x: (Key, T), key: Key)
    requires Ascending(xs)
    ensures WithKey(Insert(xs, x), key) == WithKey(xs + [x], key)
  {
    if xs != [] && Less(x.0, Last(xs).0) {
      var front, last := Front(xs), Last(xs);
      InsertIsStable(front, x, key);
      LessIsTotal(x.0, last.0);
      WithKeySnoc(Insert(front, x), last, key);
      WithKeySnoc(front + [x], last, key);
      SwapEnds(front, x, last, key);
      assert xs + [x] == front + [last] + [x];
    }
  }

  lemma {:induction false} SortIsStable<T>(xs: seq<(Key, T)>)
    ensures Ascending(Sort(xs)) && multiset(Sort(xs)) == multiset(xs)
    ensures forall key :: WithKey(Sort(xs), key) == WithKey(xs, key)
  {
    if xs != [] {
      SortIsStable(Front(xs));
      InsertSorts(Sort(Front(xs)), Last(xs));
      InsertKeeps(Sort(Front(xs)), Last(xs));
      assert xs == Front(xs) + [Last(xs)];
      forall key ensures WithKey(Sort(xs), key) == WithKey(xs, key) {
        InsertIsStable(Sort(Front(xs)), Last(xs), key);
        WithKeySnoc(Sort(Front(xs)), Last(xs), key);
      }
    }
  }

  /** Where the element that sorts to position `i` came from, and where the one at `i` goes. */
  lemma SortMoves<T>(xs: seq<(Key, T)>, i: nat) returns (from: nat, to: nat)
    requires i < |xs|
    ensures |Sort(xs)| == |xs| && from < |xs| && to < |xs|
    ensures xs[from] == Sort(xs)[i] && Sort(xs)[to] == xs[i]
  {
    SortIsStable(xs);
    assert |multiset(xs)| == |xs| && |multiset(Sort(xs))| == |Sort(xs)|;
    assert Sort(xs)[i] in multiset(Sort(xs)) && xs[i] in multiset(xs);
    from :| 0 <= from < |xs| && xs[from] == Sort(xs)[i];
    to :| 0 <= to < |xs| && Sort(xs)[to] == xs[i];
  }

  lemma SortLength<T>(xs: seq<(Key, T)>)
    ensures |Sort(xs)| == |xs|
  {
    SortIsStable(xs);
    assert |multiset(xs)| == |xs| && |multiset(Sort(xs))| == |Sort(xs)|;
  }

  lemma {:induction false} WithKeyMembers<T>(xs: seq<(Key, T)>, key: Key)
    ensures WithKey(xs, key) != [] <==> exists i :: 0 <= i < |xs| && xs[i].0 == key
  {
    if xs != [] {
      WithKeyMembers(Front(xs), key);
      assert forall i :: 0 <= i < |xs| - 1 ==> Front(xs)[i] == xs[i];
      if Last(xs).0 == key { assert xs[|xs| - 1].0 == key; }
    }
  }

  lemma LastIsLargest<T>(xs: seq<(Key, T)>, key: Key)
    requires Ascending(xs) && xs != [] && WithKey(xs, key) != []
    ensures !Less(Last(xs).0, key)
  {
    WithKeyMembers(xs, key);
    LessIsTotal(key, key);
  }

  /** An ascending order in which equal keys keep their order is the only one: sorting has one result. */
  lemma {:induction false} StableOrderIsUnique<T>(xs: seq<(Key, T)>, ys: seq<(Key, T)>)
    requires Ascending(xs) && Ascending(ys)
    requires forall key :: WithKey(xs, key) == WithKey(ys, key)
    ensures xs == ys
  {
    if xs == [] {
      var k := if ys == [] then [] else Last(ys).0;
      assert WithKey(xs, k) == WithKey(ys, k);
    } else {
      var k := Last(xs).0;
      assert WithKey(xs, k) == WithKey(ys, k) && WithKey(xs, k) != [];
      assert ys != [];
      assert WithKey(xs, Last(ys).0) == WithKey(ys, Last(ys).0) && WithKey(ys, Last(ys).0) != [];
      LastIsLargest(xs, Last(ys).0);
      LastIsLargest(ys, k);
      LessIsTotal(k, Last(ys).0);
      assert Last(WithKey(xs, k)) == Last(xs) && Last(WithKey(ys, k)) == Last(ys);
      forall key ensures WithKey(Front(xs), key) == WithKey(Front(ys), key) {
        assert WithKey(xs, key) == WithKey(ys, key);
        if key == k {
          assert WithKey(Front(xs), k) == Front(WithKey(xs, k)) && WithKey(Front(ys), k) == Front(WithKey(ys, k));
        }
      }
      StableOrderIsUnique(Front(xs), Front(ys));
      assert xs == Front(xs) + [Last(xs)] && ys == Front(ys) + [Last(ys)];
    }
  }

  lemma SortOfSorted<T>(xs: seq<(Key, T)>)
    requires Ascending(xs)
    ensures Sort(xs) == xs
  {
    SortIsStable(xs);
    StableOrderIsUnique(Sort(xs), xs);
  }
}
