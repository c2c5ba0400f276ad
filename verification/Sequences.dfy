/** Sequences: selecting from them, counting in them, and having no duplicates. */
module Sequences {
  /** No element occurs twice. */
  ghost predicate Distinct<T(!new)>(xs: seq<T>) {
    forall i, j :: 0 <= i < j < |xs| ==> xs[i] != xs[j]
  }

  lemma {:induction false} DistinctSnoc<T(!new)>(xs: seq<T>, x: T)
    requires Distinct(xs + [x])
    ensures Distinct(xs) && x !in xs
  {
    var all := xs + [x];
    assert forall i :: 0 <= i < |xs| ==> all[i] == xs[i];
    assert all[|xs|] == x;
  }

  // ── Selecting ───────────────────────────────────────────────────────────

  /** What `f` finds in each element, in order. */
  function Collect<S, T>(f: S -> seq<T>, xs: seq<S>): seq<T> {
    if xs == [] then [] else f(xs[0]) + Collect(f, xs[1..])
  }

  lemma {:induction false} CollectConcat<S, T>(f: S -> seq<T>, xs: seq<S>, ys: seq<S>)
    ensures Collect(f, xs + ys) == Collect(f, xs) + Collect(f, ys)
  {
    if xs == [] {
      assert xs + ys == ys;
    } else {
      CollectConcat(f, xs[1..], ys);
      assert (xs + ys)[0] == xs[0] && (xs + ys)[1..] == xs[1..] + ys;
    }
  }

  lemma {:induction false} CollectCons<S, T>(f: S -> seq<T>, x: S, xs: seq<S>)
    ensures Collect(f, [x] + xs) == f(x) + Collect(f, xs)
  {
    assert ([x] + xs)[1..] == xs;
  }

  lemma {:induction false} CollectOne<S, T>(f: S -> seq<T>, x: S)
    ensures Collect(f, [x]) == f(x)
  {
    assert [x][1..] == [];
  }

  lemma {:induction false} CollectSnoc<S, T>(f: S -> seq<T>, xs: seq<S>, x: S)
    ensures Collect(f, xs + [x]) == Collect(f, xs) + f(x)
  {
    CollectConcat(f, xs, [x]);
    CollectOne(f, x);
  }

  lemma {:induction false} CollectNothing<S, T>(f: S -> seq<T>, xs: seq<S>)
    requires forall x :: x in xs ==> f(x) == []
    ensures Collect(f, xs) == []
  {
    if xs != [] {
      CollectNothing(f, xs[1..]);
    }
  }

  lemma {:induction false} CollectGrows<S, T>(f: S -> seq<T>, xs: seq<S>, ys: seq<S>)
    requires xs <= ys
    ensures Collect(f, xs) <= Collect(f, ys)
  {
    assert ys == xs + ys[|xs|..];
    CollectConcat(f, xs, ys[|xs|..]);
  }

  lemma {:induction false} CollectSource<S, T>(f: S -> seq<T>, xs: seq<S>, y: T) returns (x: S)
    requires y in Collect(f, xs)
    ensures x in xs && y in f(x)
  {
    if y in f(xs[0]) {
      x := xs[0];
    } else {
      x := CollectSource(f, xs[1..], y);
    }
  }

  lemma {:induction false} CollectMember<S, T>(f: S -> seq<T>, xs: seq<S>, x: S, y: T)
    requires x in xs && y in f(x)
    ensures y in Collect(f, xs)
  {
    if x != xs[0] {
      CollectMember(f, xs[1..], x, y);
    }
  }

  /** Selecting from what was selected. */
  lemma {:induction false} CollectCollect<R, S, T>(f: R -> seq<S>, g: S -> seq<T>, h: R -> seq<T>, xs: seq<R>)
    requires forall x :: x in xs ==> Collect(g, f(x)) == h(x)
    ensures Collect(g, Collect(f, xs)) == Collect(h, xs)
  {
    if xs != [] {
      CollectCollect(f, g, h, xs[1..]);
      CollectConcat(g, f(xs[0]), Collect(f, xs[1..]));
    }
  }

  /** Selections that agree element by element. */
  lemma {:induction false} CollectAlike<R, S, T>(f: R -> seq<T>, xs: seq<R>, g: S -> seq<T>, ys: seq<S>)
    requires |xs| == |ys| && forall i :: 0 <= i < |xs| ==> f(xs[i]) == g(ys[i])
    ensures Collect(f, xs) == Collect(g, ys)
  {
    if xs != [] {
      CollectAlike(f, xs[1..], g, ys[1..]);
    }
  }

  // ── Counting ────────────────────────────────────────────────────────────

  /** How often a number occurs. */
  function Count(xs: seq<nat>, x: nat): nat {
    if xs == [] then 0 else (if xs[0] == x then 1 else 0) + Count(xs[1..], x)
  }

  lemma {:induction false} CountConcat(xs: seq<nat>, ys: seq<nat>, x: nat)
    ensures Count(xs + ys, x) == Count(xs, x) + Count(ys, x)
  {
    if xs == [] {
      assert xs + ys == ys;
    } else {
      CountConcat(xs[1..], ys, x);
      assert (xs + ys)[1..] == xs[1..] + ys;
    }
  }

  lemma {:induction false} CountPositive(xs: seq<nat>, x: nat)
    ensures Count(xs, x) > 0 <==> x in xs
  {
    if xs != [] {
      CountPositive(xs[1..], x);
      assert xs == [xs[0]] + xs[1..];
    }
  }

  lemma {:induction false} CountTwice(xs: seq<nat>, i: nat, j: nat)
    requires i < j < |xs| && xs[i] == xs[j]
    ensures Count(xs, xs[i]) >= 2
  {
    if i == 0 {
      CountPositive(xs[1..], xs[0]);
      assert xs[1..][j - 1] == xs[0];
    } else {
      CountTwice(xs[1..], i - 1, j - 1);
    }
  }

  /** One more element selected from counts if it is the number. */
  lemma {:induction false} CountSelected<S>(f: S -> seq<nat>, xs: seq<S>, x: S, n: nat)
    requires |f(x)| <= 1
    ensures Count(Collect(f, xs + [x]), n) == Count(Collect(f, xs), n) + if f(x) == [n] then 1 else 0
  {
    CollectSnoc(f, xs, x);
    CountConcat(Collect(f, xs), f(x), n);
    assert f(x) != [] ==> f(x) == [f(x)[0]] && f(x)[1..] == [];
  }
}
