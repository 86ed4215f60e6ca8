/** Sequence helpers: list comprehensions with a filter, and flattening. */
module Sequences {
  import opened Wrappers

  function OptionToSeq<T>(o: Option<T>): seq<T>
  {
    if o.Some? then [o.value] else []
  }

  /** The values `f` yields on `xs`, in order, skipping the `None`s. */
  function FilterMap<A, B>(f: A -> Option<B>, xs: seq<A>): (r: seq<B>)
    ensures |r| <= |xs|
  {
    if xs == [] then [] else FilterMap(f, xs[..|xs| - 1]) + OptionToSeq(f(xs[|xs| - 1]))
  }

  lemma {:induction false} FilterMapAppend<A, B>(f: A -> Option<B>, xs: seq<A>, ys: seq<A>)
    ensures FilterMap(f, xs + ys) == FilterMap(f, xs) + FilterMap(f, ys)
    decreases |ys|
  {
    if ys == [] {
      assert xs + ys == xs;
    } else {
      var ys' := ys[..|ys| - 1];
      assert (xs + ys)[..|xs + ys| - 1] == xs + ys';
      assert (xs + ys)[|xs + ys| - 1] == ys[|ys| - 1];
      FilterMapAppend(f, xs, ys');
    }
  }

  /** Every value kept satisfies what every value `f` yields satisfies. */
  lemma {:induction false} FilterMapKeeps<A, B>(f: A -> Option<B>, p: B -> bool, xs: seq<A>)
    requires forall x :: f(x).Some? ==> p(f(x).value)
    ensures forall i :: 0 <= i < |FilterMap(f, xs)| ==> p(FilterMap(f, xs)[i])
    decreases |xs|
  {
    if xs != [] {
      FilterMapKeeps(f, p, xs[..|xs| - 1]);
    }
  }

  /** The lists of a list of lists, one after the other. */
  function Flatten<T>(xss: seq<seq<T>>): seq<T>
  {
    if xss == [] then [] else Flatten(xss[..|xss| - 1]) + xss[|xss| - 1]
  }

  /** One more element of the prefix adds what `f` yields on it. */
  lemma FilterMapStep<A, B>(f: A -> Option<B>, xs: seq<A>, i: nat)
    requires i < |xs|
    ensures FilterMap(f, xs[..i + 1]) == FilterMap(f, xs[..i]) + OptionToSeq(f(xs[i]))
  {
    assert xs[..i + 1][..i] == xs[..i];
  }

  /** One more list of the prefix adds that list. */
  lemma FlattenStep<T>(xss: seq<seq<T>>, i: nat)
    requires i < |xss|
    ensures Flatten(xss[..i + 1]) == Flatten(xss[..i]) + xss[i]
  {
    assert xss[..i + 1][..i] == xss[..i];
  }

  lemma AppendAssoc<T>(a: seq<T>, b: seq<T>, c: seq<T>)
    ensures (a + b) + c == a + (b + c)
  {
  }

  /** The index of the first element satisfying `p`, or the length. */
  function FirstIndex<T>(p: T -> bool, xs: seq<T>): (k: nat)
    ensures k <= |xs|
    ensures forall i :: 0 <= i < k ==> !p(xs[i])
    ensures k < |xs| ==> p(xs[k])
  {
    if xs == [] then 0
    else
      var init := xs[..|xs| - 1];
      var k := FirstIndex(p, init);
      if k < |init| then k
      else if p(xs[|xs| - 1]) then |init|
      else |xs|
  }

  /** `q` holds of every element from the first one satisfying `p` on exactly
      when it holds so of the list without its last element and, once an
      earlier element satisfies `p`, of the last one (an element satisfying
      `p` satisfies `q`). */
  lemma AllFromFirstLast<T>(p: T -> bool, q: T -> bool, xs: seq<T>)
    requires xs != []
    requires forall x :: p(x) ==> q(x)
    ensures var init, x := xs[..|xs| - 1], xs[|xs| - 1]; var k := FirstIndex(p, init);
      (forall i :: FirstIndex(p, xs) <= i < |xs| ==> q(xs[i]))
      <==> (forall i :: k <= i < |init| ==> q(init[i])) && (k < |init| ==> q(x))
  {
    var n := |xs| - 1;
    assert forall i :: 0 <= i < n ==> xs[i] == xs[..n][i];
  }

  /** What `f` yields before the first element satisfying `p` grows by what it
      yields on the last element only while no earlier element satisfies `p`
      and the last one does not either. */
  lemma FilterMapBeforeLast<A, B>(f: A -> Option<B>, p: A -> bool, xs: seq<A>)
    requires xs != []
    ensures var init, x := xs[..|xs| - 1], xs[|xs| - 1]; var k := FirstIndex(p, init);
      FilterMap(f, xs[..FirstIndex(p, xs)])
      == FilterMap(f, init[..k]) + (if k < |init| || p(x) then [] else OptionToSeq(f(x)))
  {
    var n := |xs| - 1;
    var init, x := xs[..n], xs[n];
    var k := FirstIndex(p, init);
    if k < n {
      assert xs[..k] == init[..k];
    } else if p(x) {
      assert init[..k] == init == xs[..n];
    } else {
      assert xs[..n + 1] == xs && init[..k] == init;
    }
  }

  /** The left fold of `g` over a list, from `m0`. */
  function FoldLeft<A, M>(g: (M, A) -> M, m0: M, xs: seq<A>): M
  {
    if xs == [] then m0 else g(FoldLeft(g, m0, xs[..|xs| - 1]), xs[|xs| - 1])
  }

  /** The fold from the first element satisfying `p` on takes in the last
      element only once some element up to it satisfies `p`. */
  lemma FoldFromLast<A, M>(g: (M, A) -> M, m0: M, p: A -> bool, xs: seq<A>)
    requires xs != []
    ensures var init, x := xs[..|xs| - 1], xs[|xs| - 1]; var k := FirstIndex(p, init);
      FoldLeft(g, m0, xs[FirstIndex(p, xs)..])
      == if k < |init| then g(FoldLeft(g, m0, init[k..]), x) else if p(x) then g(m0, x) else m0
  {
    var n := |xs| - 1;
    var init, x := xs[..n], xs[n];
    var k := FirstIndex(p, init);
    if k < n {
      var tail := xs[k..];
      assert tail[..|tail| - 1] == init[k..] && tail[|tail| - 1] == x;
    } else if p(x) {
      assert xs[n..] == [x] && [x][..0] == [];
    } else {
      assert xs[n + 1..] == [];
    }
  }

  /** The fold over three elements. */
  lemma FoldLeftThree<A, M>(g: (M, A) -> M, m0: M, xs: seq<A>)
    requires |xs| == 3
    ensures FoldLeft(g, m0, xs) == g(g(g(m0, xs[0]), xs[1]), xs[2])
  {
    assert xs[..1][..0] == [] && xs[..2][..1] == xs[..1] && xs[..2] == xs[..|xs| - 1];
    assert FoldLeft(g, m0, xs[..1]) == g(m0, xs[0]);
    assert FoldLeft(g, m0, xs[..2]) == g(g(m0, xs[0]), xs[1]);
  }

  /** The first element satisfying `p` is the one before which none does. */
  lemma FirstIndexIs<T>(p: T -> bool, xs: seq<T>, k: nat)
    requires k < |xs| && p(xs[k]) && forall i :: 0 <= i < k ==> !p(xs[i])
    ensures FirstIndex(p, xs) == k
  {
  }

  /** A property of the last three of seven elements, as a quantified fact. */
  lemma LastThree<T>(p: T -> bool, xs: seq<T>)
    requires |xs| == 7 && p(xs[4]) && p(xs[5]) && p(xs[6])
    ensures forall i :: 4 <= i < 7 ==> p(xs[i])
  {
    forall i | 4 <= i < 7
      ensures p(xs[i])
    {
      assert i == 4 || i == 5 || i == 6;
    }
  }

  /** Regrouping a text between two copies of a separator and a prefix. */
  lemma Regroup<T>(x: T, b: seq<T>, c: seq<T>)
    ensures [x] + (b + c) + [x] + b == ([x] + b) + c + ([x] + b)
  {
  }
}
