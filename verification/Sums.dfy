/** Finite sums over sets, and counting in sequences. */
module Sums {

  /** The sum of `w` over `s`; `SumStep` shows that the order does not matter. */
  ghost function Sum<T(!new)>(s: set<T>, w: T -> nat): nat
  {
    if s == {} then 0 else
      var x :| x in s;
      w(x) + Sum(s - {x}, w)
  }

  lemma {:induction false} SumStep<T(!new)>(s: set<T>, w: T -> nat, y: T)
    requires y in s
    ensures Sum(s, w) == w(y) + Sum(s - {y}, w)
  {
    var x :| x in s && Sum(s, w) == w(x) + Sum(s - {x}, w);
    if x != y {
      SumStep(s - {x}, w, y);
      SumStep(s - {y}, w, x);
      assert s - {x} - {y} == s - {y} - {x};
    }
  }

  lemma {:induction false} SumCongruent<T(!new)>(s: set<T>, v: T -> nat, w: T -> nat)
    requires forall x :: x in s ==> v(x) == w(x)
    ensures Sum(s, v) == Sum(s, w)
  {
    if s != {} {
      var x :| x in s;
      SumCongruent(s - {x}, v, w);
      SumStep(s, v, x);
      SumStep(s, w, x);
    }
  }

  /** Changing one summand changes the sum by the same amount. */
  lemma SumChange<T(!new)>(s: set<T>, v: T -> nat, w: T -> nat, y: T)
    requires y in s
    requires forall x :: x in s && x != y ==> v(x) == w(x)
    ensures Sum(s, w) - Sum(s, v) == w(y) - v(y)
  {
    SumStep(s, v, y);
    SumStep(s, w, y);
    SumCongruent(s - {y}, v, w);
  }

  lemma {:induction false} SumAdd<T(!new)>(s: set<T>, u: T -> nat, v: T -> nat, w: T -> nat)
    requires forall x :: x in s ==> w(x) == u(x) + v(x)
    ensures Sum(s, w) == Sum(s, u) + Sum(s, v)
  {
    if s != {} {
      var x :| x in s;
      SumAdd(s - {x}, u, v, w);
      SumStep(s, u, x);
      SumStep(s, v, x);
      SumStep(s, w, x);
    }
  }

  lemma {:induction false} SumZero<T(!new)>(s: set<T>, w: T -> nat)
    ensures Sum(s, w) == 0 <==> forall x :: x in s ==> w(x) == 0
  {
    forall x | x in s ensures w(x) <= Sum(s, w) { SumStep(s, w, x); }
    if forall x :: x in s ==> w(x) == 0 {
      SumCongruent(s, w, x => 0);
      SumOfZeros(s);
    }
  }

  lemma SumOfZeros<T(!new)>(s: set<T>)
    ensures Sum(s, (x: T) => 0) == 0
  {
    if s != {} {
      var x :| x in s;
      SumOfZeros(s - {x});
      SumStep(s, (x: T) => 0, x);
    }
  }

  lemma {:induction false} SumOfOnes<T(!new)>(s: set<T>, w: T -> nat)
    requires forall x :: x in s ==> w(x) == 1
    ensures Sum(s, w) == |s|
  {
    if s != {} {
      var x :| x in s;
      SumOfOnes(s - {x}, w);
      SumStep(s, w, x);
    }
  }

  lemma {:induction false} SumUnion<T(!new)>(s: set<T>, t: set<T>, w: T -> nat)
    requires s !! t
    ensures Sum(s + t, w) == Sum(s, w) + Sum(t, w)
  {
    if s == {} {
      assert s + t == t;
    } else {
      var x :| x in s;
      SumUnion(s - {x}, t, w);
      SumStep(s, w, x);
      SumStep(s + t, w, x);
      assert s + t - {x} == (s - {x}) + t;
    }
  }

  ghost function Fiber<T(!new), C>(s: set<T>, h: T -> C, c: C): set<T>
  {
    set x | x in s && h(x) == c
  }

  ghost function FiberTotal<T(!new), C(!new)>(s: set<T>, h: T -> C, w: T -> nat): C -> nat
  {
    c => Sum(Fiber(s, h, c), w)
  }

  /** Summing fibre by fibre gives the whole sum. */
  lemma {:induction false} SumFibers<T(!new), C(!new)>(s: set<T>, h: T -> C, cs: set<C>, w: T -> nat)
    requires forall x :: x in s ==> h(x) in cs
    ensures Sum(cs, FiberTotal(s, h, w)) == Sum(s, w)
  {
    var per := FiberTotal(s, h, w);
    if cs != {} {
      var c :| c in cs;
      var here := Fiber(s, h, c);
      var rest := s - here;
      SumFibers(rest, h, cs - {c}, w);
      var per' := FiberTotal(rest, h, w);
      forall d | d in cs - {c} ensures per(d) == per'(d) {
        assert Fiber(s, h, d) == Fiber(rest, h, d);
      }
      SumCongruent(cs - {c}, per, per');
      SumStep(cs, per, c);
      SumUnion(here, rest, w);
      assert here + rest == s;
    }
  }

  /** How many elements of `s` satisfy `p`. */
  ghost function Count<T(!new)>(s: seq<T>, p: T -> bool): nat
  {
    if s == [] then 0 else (if p(s[0]) then 1 else 0) + Count(s[1..], p)
  }

  lemma {:induction false} CountConcat<T(!new)>(s: seq<T>, t: seq<T>, p: T -> bool)
    ensures Count(s + t, p) == Count(s, p) + Count(t, p)
  {
    if s == [] {
      assert s + t == t;
    } else {
      assert (s + t)[1..] == s[1..] + t;
      CountConcat(s[1..], t, p);
    }
  }

  lemma CountRemove<T(!new)>(s: seq<T>, i: nat, p: T -> bool)
    requires i < |s|
    ensures Count(s, p) == Count(s[..i] + s[i + 1..], p) + (if p(s[i]) then 1 else 0)
  {
    assert s == s[..i] + [s[i]] + s[i + 1..];
    CountConcat(s[..i] + [s[i]], s[i + 1..], p);
    CountConcat(s[..i], [s[i]], p);
    CountConcat(s[..i], s[i + 1..], p);
  }

  /** Counting two kinds that have nothing in common. */
  lemma {:induction false} CountEither<T(!new)>(s: seq<T>, p: T -> bool, q: T -> bool, r: T -> bool)
    requires forall x :: (r(x) <==> p(x) || q(x)) && !(p(x) && q(x))
    ensures Count(s, r) == Count(s, p) + Count(s, q)
  {
    if s != [] { CountEither(s[1..], p, q, r); }
  }

  lemma {:induction false} CountPositive<T(!new)>(s: seq<T>, p: T -> bool)
    ensures Count(s, p) > 0 <==> exists x :: x in s && p(x)
  {
    if s != [] {
      CountPositive(s[1..], p);
      assert s == [s[0]] + s[1..];
    }
  }
}
