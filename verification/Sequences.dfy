/** Selecting list elements by tag, and sums over lists: the vocabulary shared by the window and compression modules. */
module Sequences {

  datatype Option<+T> = None | Some(value: T)

  /** Last element and everything before it. */
  function Last<T>(xs: seq<T>): T
    requires xs != []
  {
    xs[|xs| - 1]
  }

  function Front<T>(xs: seq<T>): seq<T>
    requires xs != []
  {
    xs[..|xs| - 1]
  }

  function Sum(xs: seq<int>): int {
    if xs == [] then 0 else Sum(Front(xs)) + Last(xs)
  }

  lemma {:induction false} SumAppend(xs: seq<int>, ys: seq<int>)
    ensures Sum(xs + ys) == Sum(xs) + Sum(ys)
  {
    if ys == [] {
      assert xs + ys == xs;
    } else {
      SumAppend(xs, Front(ys));
      assert Front(xs + ys) == xs + Front(ys);
    }
  }

  function Flatten<T>(xss: seq<seq<T>>): seq<T> {
    if xss == [] then [] else Flatten(Front(xss)) + Last(xss)
  }

  lemma {:induction false} FlattenAppend<T>(xss: seq<seq<T>>, yss: seq<seq<T>>)
    ensures Flatten(xss + yss) == Flatten(xss) + Flatten(yss)
  {
    if yss == [] {
      assert xss + yss == xss;
    } else {
      FlattenAppend(xss, Front(yss));
      assert Front(xss + yss) == xss + Front(yss);
    }
  }

  /** The elements of `xs` whose tag is `b`, in order. */
  function Pick<T, B(==)>(xs: seq<T>, tags: seq<B>, b: B): seq<T>
    requires |xs| == |tags|
  {
    if xs == [] then []
    else Pick(Front(xs), Front(tags), b) + (if Last(tags) == b then [Last(xs)] else [])
  }

  /** How many of the first `i` tags are `b`: the position an element at `i` takes among the picked ones. */
  function Rank<B(==)>(tags: seq<B>, b: B, i: nat): nat
    requires i <= |tags|
  {
    |Pick(tags[..i], tags[..i], b)|
  }

  lemma {:induction false} PickLength<T, U, B>(xs: seq<T>, ys: seq<U>, tags: seq<B>, b: B)
    requires |xs| == |ys| == |tags|
    ensures |Pick(xs, tags, b)| == |Pick(ys, tags, b)| <= |xs|
  {
    if xs != [] {
      PickLength(Front(xs), Front(ys), Front(tags), b);
    }
  }

  lemma {:induction false} PickAppend<T, B>(xs: seq<T>, ys: seq<T>, s: seq<B>, t: seq<B>, b: B)
    requires |xs| == |s| && |ys| == |t|
    ensures Pick(xs + ys, s + t, b) == Pick(xs, s, b) + Pick(ys, t, b)
  {
    if ys == [] {
      assert xs + ys == xs && s + t == s;
    } else {
      PickAppend(xs, Front(ys), s, Front(t), b);
      assert Front(xs + ys) == xs + Front(ys);
      assert Front(s + t) == s + Front(t);
    }
  }

  lemma PickPrefix<T, B>(xs: seq<T>, tags: seq<B>, b: B, i: nat)
    requires |xs| == |tags| && i <= |xs|
    ensures Pick(xs[..i], tags[..i], b) <= Pick(xs, tags, b)
    ensures |Pick(xs[..i], tags[..i], b)| == Rank(tags, b, i)
    ensures i < |xs| && tags[i] == b ==>
              Rank(tags, b, i) < |Pick(xs, tags, b)| && Pick(xs, tags, b)[Rank(tags, b, i)] == xs[i]
  {
    PickAppend(xs[..i], xs[i..], tags[..i], tags[i..], b);
    assert xs[..i] + xs[i..] == xs && tags[..i] + tags[i..] == tags;
    PickLength(xs[..i], tags[..i], tags[..i], b);
    if i < |xs| && tags[i] == b {
      PickAppend([xs[i]], xs[i + 1..], [tags[i]], tags[i + 1..], b);
      assert [xs[i]] + xs[i + 1..] == xs[i..] && [tags[i]] + tags[i + 1..] == tags[i..];
      assert Pick([xs[i]], [tags[i]], b) == [xs[i]] by {
        assert Front([xs[i]]) == [];
      }
    }
  }

  lemma {:induction false} PickAll<T, B>(xs: seq<T>, tags: seq<B>, b: B)
    requires |xs| == |tags|
    requires forall i :: 0 <= i < |tags| ==> tags[i] == b
    ensures Pick(xs, tags, b) == xs
  {
    if xs != [] {
      PickAll(Front(xs), Front(tags), b);
    }
  }

  lemma {:induction false} PickNone<T, B>(xs: seq<T>, tags: seq<B>, b: B)
    requires |xs| == |tags|
    requires forall i :: 0 <= i < |tags| ==> tags[i] != b
    ensures Pick(xs, tags, b) == []
  {
    if xs != [] {
      PickNone(Front(xs), Front(tags), b);
    }
  }

  /** Tags for the elements that `outer` tagged `b` are refined by `inner`; every other tag stays. */
  function Lift<B(==)>(outer: seq<B>, b: B, inner: seq<B>): (tags: seq<B>)
    requires |inner| == |Pick(outer, outer, b)|
    ensures |tags| == |outer|
  {
    if outer == [] then []
    else if Last(outer) == b then Lift(Front(outer), b, Front(inner)) + [Last(inner)]
    else Lift(Front(outer), b, inner) + [Last(outer)]
  }

  /** Picking `c` through a refinement is picking `c` outside it plus, in place, `c` among the refined elements. */
  lemma {:induction false} PickLift<T, B>(xs: seq<T>, outer: seq<B>, b: B, inner: seq<B>, c: B)
    requires |xs| == |outer| && |inner| == |Pick(outer, outer, b)|
    ensures |Pick(xs, outer, b)| == |inner|
    ensures c == b || c !in outer ==>
              Pick(xs, Lift(outer, b, inner), c) == Pick(Pick(xs, outer, b), inner, c)
    ensures c != b && c !in inner ==>
              Pick(xs, Lift(outer, b, inner), c) == Pick(xs, outer, c)
  {
    PickLength(xs, outer, outer, b);
    if xs != [] {
      var inner' := if Last(outer) == b then Front(inner) else inner;
      PickLift(Front(xs), Front(outer), b, inner', c);
      assert Front(Lift(outer, b, inner)) == Lift(Front(outer), b, inner');
      if Last(outer) == b {
        assert Pick(xs, outer, b) == Pick(Front(xs), Front(outer), b) + [Last(xs)];
        assert Front(Pick(xs, outer, b)) == Pick(Front(xs), Front(outer), b);
      } else {
        assert Pick(xs, outer, b) == Pick(Front(xs), Front(outer), b);
        assert Last(Lift(outer, b, inner)) == Last(outer);
      }
    }
  }
}
