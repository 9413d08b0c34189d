/** Sequence notions shared by all components: flattening, mapping one item to many,
    and "is obtained by deleting elements" (an order-preserving subsequence). */
module Sequences {

  datatype Option<+T> = None | Some(value: T)

  /** All inner sequences, one after the other. */
  function Concat<T>(xss: seq<seq<T>>): (r: seq<T>) {
    if xss == [] then [] else xss[0] + Concat(xss[1..])
  }

  /** Every item replaced by its images, in order. */
  function FlatMap<A, B>(f: A -> seq<B>, xs: seq<A>): (r: seq<B>) {
    if xs == [] then [] else f(xs[0]) + FlatMap(f, xs[1..])
  }

  /** A map's list under a key; an absent key reads as the empty list. */
  function ListAt<K, V>(m: map<K, seq<V>>, key: K): (r: seq<V>) {
    if key in m then m[key] else []
  }

  /** `xs` is `ys` with some elements deleted and the others left in order. */
  ghost predicate Subsequence<T>(xs: seq<T>, ys: seq<T>) {
    if xs == [] then true
    else if ys == [] then false
    else (xs[0] == ys[0] && Subsequence(xs[1..], ys[1..])) || Subsequence(xs, ys[1..])
  }

  lemma AppendAssoc<T>(xs: seq<T>, ys: seq<T>, zs: seq<T>)
    ensures (xs + ys) + zs == xs + (ys + zs)
  {
  }

  lemma {:induction false} ConcatAppend<T>(xss: seq<seq<T>>, yss: seq<seq<T>>)
    ensures Concat(xss + yss) == Concat(xss) + Concat(yss)
  {
    if xss == [] {
      assert xss + yss == yss;
    } else {
      ConcatAppend(xss[1..], yss);
      AppendAssoc(xss[0], Concat(xss[1..]), Concat(yss));
      assert (xss + yss)[1..] == xss[1..] + yss;
      assert Concat(xss + yss) == xss[0] + Concat(xss[1..] + yss);
      hide Concat;
    }
  }

  lemma ConcatSnoc<T>(xss: seq<seq<T>>, xs: seq<T>)
    ensures Concat(xss + [xs]) == Concat(xss) + xs
  {
    ConcatAppend(xss, [xs]);
    assert Concat([xs]) == xs;
  }

  lemma {:induction false} FlatMapAppend<A, B>(f: A -> seq<B>, xs: seq<A>, ys: seq<A>)
    ensures FlatMap(f, xs + ys) == FlatMap(f, xs) + FlatMap(f, ys)
  {
    if xs == [] {
      assert xs + ys == ys;
    } else {
      FlatMapAppend(f, xs[1..], ys);
      AppendAssoc(f(xs[0]), FlatMap(f, xs[1..]), FlatMap(f, ys));
      assert (xs + ys)[1..] == xs[1..] + ys;
    }
  }

  lemma FlatMapSnoc<A, B>(f: A -> seq<B>, xs: seq<A>, x: A)
    ensures FlatMap(f, xs + [x]) == FlatMap(f, xs) + f(x)
  {
    FlatMapAppend(f, xs, [x]);
    assert FlatMap(f, [x]) == f(x);
  }

  lemma {:induction false} SubsequenceRefl<T>(xs: seq<T>)
    ensures Subsequence(xs, xs)
  {
    if xs != [] {
      SubsequenceRefl(xs[1..]);
    }
  }

  lemma {:induction false} SubsequenceTrans<T>(xs: seq<T>, ys: seq<T>, zs: seq<T>)
    requires Subsequence(xs, ys) && Subsequence(ys, zs)
    ensures Subsequence(xs, zs)
    decreases |xs| + |ys| + |zs|
  {
    if xs != [] {
      if ys[0] == zs[0] && Subsequence(ys[1..], zs[1..]) {
        if xs[0] == ys[0] && Subsequence(xs[1..], ys[1..]) {
          SubsequenceTrans(xs[1..], ys[1..], zs[1..]);
        } else {
          SubsequenceTrans(xs, ys[1..], zs[1..]);
        }
      } else {
        SubsequenceTrans(xs, ys, zs[1..]);
      }
    }
  }

  /** Deletions in two neighbouring parts are deletions in the whole. */
  lemma {:induction false} SubsequenceAppend<T>(xs: seq<T>, ys: seq<T>, us: seq<T>, vs: seq<T>)
    requires Subsequence(xs, ys) && Subsequence(us, vs)
    ensures Subsequence(xs + us, ys + vs)
    decreases |ys|
  {
    if ys == [] {
      assert xs + us == us && ys + vs == vs;
    } else {
      assert (ys + vs)[1..] == ys[1..] + vs;
      if xs == [] {
        SubsequenceAppend(xs, ys[1..], us, vs);
      } else if xs[0] == ys[0] && Subsequence(xs[1..], ys[1..]) {
        SubsequenceAppend(xs[1..], ys[1..], us, vs);
        assert (xs + us)[1..] == xs[1..] + us;
      } else {
        SubsequenceAppend(xs, ys[1..], us, vs);
      }
    }
  }

  lemma SubsequencePrefix<T>(xs: seq<T>, ys: seq<T>)
    ensures Subsequence(xs, xs + ys)
  {
    SubsequenceRefl(xs);
    SubsequenceAppend(xs, xs, [], ys);
    assert xs + [] == xs;
  }

  /** Deleting inputs only deletes their images. */
  lemma {:induction false} FlatMapSubsequence<A, B>(f: A -> seq<B>, xs: seq<A>, ys: seq<A>)
    requires Subsequence(xs, ys)
    ensures Subsequence(FlatMap(f, xs), FlatMap(f, ys))
    decreases |ys|
  {
    if xs != [] {
      if xs[0] == ys[0] && Subsequence(xs[1..], ys[1..]) {
        FlatMapSubsequence(f, xs[1..], ys[1..]);
        SubsequenceRefl(f(xs[0]));
        SubsequenceAppend(f(xs[0]), f(ys[0]), FlatMap(f, xs[1..]), FlatMap(f, ys[1..]));
      } else {
        FlatMapSubsequence(f, xs, ys[1..]);
        SubsequenceAppend([], f(ys[0]), FlatMap(f, xs), FlatMap(f, ys[1..]));
        assert [] + FlatMap(f, xs) == FlatMap(f, xs);
      }
    }
  }

  /** Positions, in increasing order, at which the elements of `xs` stand in `ys`. */
  ghost predicate Picks<T>(xs: seq<T>, ys: seq<T>, at: seq<nat>) {
    && |at| == |xs|
    && (forall i :: 0 <= i < |at| ==> at[i] < |ys| && ys[at[i]] == xs[i])
    && (forall i, j :: 0 <= i < j < |at| ==> at[i] < at[j])
  }

  function Shifted(at: seq<nat>): (r: seq<nat>) { seq(|at|, i requires 0 <= i < |at| => at[i] + 1) }

  lemma {:induction false} SubsequencePicks<T>(xs: seq<T>, ys: seq<T>) returns (at: seq<nat>)
    requires Subsequence(xs, ys)
    ensures Picks(xs, ys, at)
    decreases |ys|
  {
    if xs == [] {
      at := [];
    } else if xs[0] == ys[0] && Subsequence(xs[1..], ys[1..]) {
      at := SubsequencePicks(xs[1..], ys[1..]);
      at := [0] + Shifted(at);
    } else {
      at := SubsequencePicks(xs, ys[1..]);
      at := Shifted(at);
    }
  }

  lemma {:induction false} PicksSubsequence<T>(xs: seq<T>, ys: seq<T>, at: seq<nat>)
    requires Picks(xs, ys, at)
    ensures Subsequence(xs, ys)
    decreases |ys|
  {
    if xs != [] {
      var rest := if at[0] == 0 then at[1..] else at;
      var down := seq(|rest|, i requires 0 <= i < |rest| => if rest[i] > 0 then rest[i] - 1 else 0);
      assert forall i :: 0 < i < |at| ==> at[0] < at[i];
      PicksSubsequence(if at[0] == 0 then xs[1..] else xs, ys[1..], down);
    }
  }

  /** A subsequence is a choice of positions in increasing order. */
  lemma SubsequenceMeans<T>(xs: seq<T>, ys: seq<T>)
    ensures Subsequence(xs, ys) <==> exists at: seq<nat> :: Picks(xs, ys, at)
  {
    if Subsequence(xs, ys) {
      var at := SubsequencePicks(xs, ys);
    }
    if exists at: seq<nat> :: Picks(xs, ys, at) {
      var at: seq<nat> :| Picks(xs, ys, at);
      PicksSubsequence(xs, ys, at);
    }
  }
}
