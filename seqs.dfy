/** Sequence combinators shared by the validators and generators. */
module Seqs {

  /** Concatenate `f(x)` over the elements of `s`, in order (a loop that appends per element). */
  function FlatMap<T, U>(s: seq<T>, f: T -> seq<U>): seq<U>
  {
    if s == [] then [] else f(s[0]) + FlatMap(s[1..], f)
  }

  lemma {:induction false} FlatMapAppend<T, U>(a: seq<T>, b: seq<T>, f: T -> seq<U>)
    ensures FlatMap(a + b, f) == FlatMap(a, f) + FlatMap(b, f)
  {
    if a == [] {
      assert a + b == b;
    } else {
      FlatMapAppend(a[1..], b, f);
      var ab := a + b;
      assert ab[0] == a[0] && ab[1..] == a[1..] + b;
      assert FlatMap(ab, f) == f(a[0]) + FlatMap(a[1..] + b, f);
      AppendAssoc(f(a[0]), FlatMap(a[1..], f), FlatMap(b, f));
    }
  }

  /** One more loop iteration appends `f` of the next element. */
  lemma FlatMapPrefix<T, U>(s: seq<T>, i: nat, f: T -> seq<U>)
    requires i < |s|
    ensures FlatMap(s[..i + 1], f) == FlatMap(s[..i], f) + f(s[i])
  {
    assert s[..i + 1] == s[..i] + [s[i]];
    FlatMapAppend(s[..i], [s[i]], f);
    assert FlatMap([s[i]], f) == f(s[i]) + FlatMap([s[i]][1..], f);
  }

  /** A loop that appends `f(s[i])` after some earlier output `init` keeps `init` plus the prefix's FlatMap. */
  lemma FlatMapStep<T, U>(init: seq<U>, s: seq<T>, i: nat, f: T -> seq<U>, before: seq<U>, after: seq<U>)
    requires i < |s|
    requires before == init + FlatMap(s[..i], f)
    requires after == before + f(s[i])
    ensures after == init + FlatMap(s[..i + 1], f)
  {
    FlatMapPrefix(s, i, f);
    AppendAssoc(init, FlatMap(s[..i], f), f(s[i]));
  }

  /** An element of the result comes from exactly the elements that produce it. */
  lemma {:induction false} FlatMapMember<T, U>(s: seq<T>, f: T -> seq<U>, x: U)
    ensures x in FlatMap(s, f) <==> exists i :: 0 <= i < |s| && x in f(s[i])
  {
    if s != [] {
      FlatMapMember(s[1..], f, x);
      if x in FlatMap(s[1..], f) {
        var i :| 0 <= i < |s[1..]| && x in f(s[1..][i]);
        assert x in f(s[i + 1]);
      }
      if exists i :: 0 <= i < |s| && x in f(s[i]) {
        var i :| 0 <= i < |s| && x in f(s[i]);
        if i > 0 {
          assert x in f(s[1..][i - 1]);
        }
      }
    }
  }

  /** The result is empty exactly when every element produces nothing. */
  lemma {:induction false} FlatMapEmpty<T, U>(s: seq<T>, f: T -> seq<U>)
    ensures FlatMap(s, f) == [] <==> forall i :: 0 <= i < |s| ==> f(s[i]) == []
  {
    if s != [] {
      FlatMapEmpty(s[1..], f);
      assert forall i :: 1 <= i < |s| ==> s[i] == s[1..][i - 1];
    }
  }

  /** Over three elements, the pieces in order. */
  lemma FlatMapThree<T, U>(s: seq<T>, f: T -> seq<U>)
    requires |s| == 3
    ensures FlatMap(s, f) == f(s[0]) + f(s[1]) + f(s[2])
  {
    assert s[1..][1..][1..] == [];
    assert FlatMap(s[1..][1..], f) == f(s[2]) + [];
  }

  /** When every element produces exactly one item, the result lists those items in order. */
  lemma {:induction false} FlatMapOnes<T, U>(s: seq<T>, f: T -> seq<U>)
    requires forall i :: 0 <= i < |s| ==> |f(s[i])| == 1
    ensures |FlatMap(s, f)| == |s|
    ensures forall k :: 0 <= k < |s| ==> FlatMap(s, f)[k] == f(s[k])[0]
  {
    if s != [] {
      assert forall i :: 0 <= i < |s[1..]| ==> s[1..][i] == s[i + 1];
      FlatMapOnes(s[1..], f);
    }
  }

  /** Like FlatMap, but each element also receives the position, counted from `at`, where its output starts. */
  function FlatMapAt<T, U>(s: seq<T>, at: nat, f: (T, nat) -> seq<U>): seq<U>
  {
    if s == [] then [] else f(s[0], at) + FlatMapAt(s[1..], at + |f(s[0], at)|, f)
  }

  /** A loop that appends `f(s[i], |acc|)` to `acc` for each `i` keeps `acc` plus what is still to come fixed. */
  lemma {:induction false} FlatMapAtStep<T, U>(target: seq<U>, s: seq<T>, i: nat, f: (T, nat) -> seq<U>, before: seq<U>, after: seq<U>)
    requires i < |s|
    requires before + FlatMapAt(s[i..], |before|, f) == target
    requires after == before + f(s[i], |before|)
    ensures after + FlatMapAt(s[i + 1..], |after|, f) == target
  {
    var rest := s[i..];
    assert rest[0] == s[i] && rest[1..] == s[i + 1..];
    var head := f(s[i], |before|);
    assert FlatMapAt(rest, |before|, f) == head + FlatMapAt(s[i + 1..], |before| + |head|, f);
  }

  /** `[x]` when `b` holds, else nothing: an item appended under a condition. */
  function When<T>(b: bool, x: T): seq<T>
  {
    if b then [x] else []
  }

  /** Three conditional items with different values, in order: each is there exactly
      when its condition holds, none twice, the last one last. */
  lemma WhenThree<T>(a: bool, x: T, b: bool, y: T, c: bool, z: T)
    requires x != y && y != z && x != z
    ensures x in When(a, x) + When(b, y) + When(c, z) <==> a
    ensures y in When(a, x) + When(b, y) + When(c, z) <==> b
    ensures z in When(a, x) + When(b, y) + When(c, z) <==> c
    ensures c ==> (When(a, x) + When(b, y) + When(c, z))[|When(a, x) + When(b, y) + When(c, z)| - 1] == z
    ensures Distinct(When(a, x) + When(b, y) + When(c, z))
    ensures forall t :: t in When(a, x) + When(b, y) + When(c, z) ==> t == x || t == y || t == z
  {
  }

  /** The elements of `s` that satisfy `p`, in order (`[x for x in s if p(x)]`). */
  function Filter<T>(s: seq<T>, p: T -> bool): (r: seq<T>)
    ensures |r| <= |s|
  {
    if s == [] then [] else When(p(s[0]), s[0]) + Filter(s[1..], p)
  }

  /** `[g(x) for x in s]`. */
  function Mapped<T, U>(s: seq<T>, g: T -> U): (r: seq<U>)
    ensures |r| == |s| && forall i :: 0 <= i < |s| ==> r[i] == g(s[i])
  {
    seq(|s|, i requires 0 <= i < |s| => g(s[i]))
  }

  /** One more loop iteration appends the image of the next element. */
  lemma MappedPrefix<T, U>(s: seq<T>, i: nat, g: T -> U)
    requires i < |s|
    ensures Mapped(s[..i + 1], g) == Mapped(s[..i], g) + [g(s[i])]
  {
  }

  lemma {:induction false} FilterMember<T>(s: seq<T>, p: T -> bool, x: T)
    ensures x in Filter(s, p) <==> x in s && p(x)
  {
    if s != [] {
      FilterMember(s[1..], p, x);
      assert x in s <==> x == s[0] || x in s[1..];
    }
  }

  /** Appending `g(x)` for each `x` that satisfies `p` lists the `g` of the filtered elements, in order. */
  lemma {:induction false} FlatMapWhen<T, U>(s: seq<T>, h: T -> seq<U>, p: T -> bool, g: T -> U)
    requires forall i :: 0 <= i < |s| ==> h(s[i]) == When(p(s[i]), g(s[i]))
    ensures FlatMap(s, h) == Mapped(Filter(s, p), g)
  {
    if s != [] {
      assert forall i :: 0 <= i < |s[1..]| ==> s[1..][i] == s[i + 1];
      FlatMapWhen(s[1..], h, p, g);
      var rest := Filter(s[1..], p);
      assert Filter(s, p) == When(p(s[0]), s[0]) + rest;
      if p(s[0]) {
        assert Mapped([s[0]] + rest, g) == [g(s[0])] + Mapped(rest, g);
      } else {
        assert [] + rest == rest;
      }
    }
  }

  /** An item of such a conditional concatenation is the `g` of an element that satisfies `p`. */
  lemma FlatMapWhenMember<T, U>(s: seq<T>, h: T -> seq<U>, p: T -> bool, g: T -> U, u: U)
    requires forall i :: 0 <= i < |s| ==> h(s[i]) == When(p(s[i]), g(s[i]))
    ensures u in FlatMap(s, h) <==> exists x :: x in s && p(x) && u == g(x)
  {
    FlatMapWhen(s, h, p, g);
    var kept := Filter(s, p);
    if u in FlatMap(s, h) {
      var i :| 0 <= i < |kept| && Mapped(kept, g)[i] == u;
      FilterMember(s, p, kept[i]);
    }
    if exists x :: x in s && p(x) && u == g(x) {
      var x :| x in s && p(x) && u == g(x);
      FilterMember(s, p, x);
      var i :| 0 <= i < |kept| && kept[i] == x;
      assert Mapped(kept, g)[i] == u;
    }
  }

  /** A filter that every element passes keeps the sequence. */
  lemma {:induction false} FilterAll<T>(s: seq<T>, p: T -> bool)
    requires forall i :: 0 <= i < |s| ==> p(s[i])
    ensures Filter(s, p) == s
  {
    if s != [] {
      assert forall i :: 0 <= i < |s[1..]| ==> s[1..][i] == s[i + 1];
      FilterAll(s[1..], p);
    }
  }

  /** Where the pieces of a section `[head] + middle + body + [tail]` sit. */
  lemma Framed<T>(head: T, middle: seq<T>, body: seq<T>, tail: T)
    ensures var s := [head] + middle + body + [tail];
      && |s| == 2 + |middle| + |body|
      && s[0] == head && s[|s| - 1] == tail
      && (forall k :: 0 <= k < |middle| ==> s[1 + k] == middle[k])
      && (forall k :: 0 <= k < |body| ==> s[1 + |middle| + k] == body[k])
  {
  }

  /** In a section framed by a head and a tail, the `k`-th single-item output of `f` sits
      right after the head and the middle. */
  lemma {:induction false} FramedOnes<T, U>(head: U, middle: seq<U>, s: seq<T>, f: T -> seq<U>, tail: U, k: nat)
    requires forall i :: 0 <= i < |s| ==> |f(s[i])| == 1
    requires k < |s|
    ensures |[head] + middle + FlatMap(s, f) + [tail]| == 2 + |middle| + |s|
    ensures ([head] + middle + FlatMap(s, f) + [tail])[1 + |middle| + k] == f(s[k])[0]
  {
    FlatMapOnes(s, f);
    Framed(head, middle, FlatMap(s, f), tail);
  }

  /** When each element yields two items, the result holds them in pairs. */
  lemma {:induction false} FlatMapPairs<T, U>(s: seq<T>, f: T -> seq<U>)
    requires forall i :: 0 <= i < |s| ==> |f(s[i])| == 2
    ensures |FlatMap(s, f)| == 2 * |s|
    ensures forall k :: 0 <= k < |s| ==> FlatMap(s, f)[2 * k] == f(s[k])[0] && FlatMap(s, f)[2 * k + 1] == f(s[k])[1]
  {
    if s != [] {
      assert forall i :: 0 <= i < |s[1..]| ==> s[1..][i] == s[i + 1];
      FlatMapPairs(s[1..], f);
      var rest := FlatMap(s[1..], f);
      assert FlatMap(s, f) == f(s[0]) + rest;
      forall k | 1 <= k < |s| ensures FlatMap(s, f)[2 * k] == f(s[k])[0] && FlatMap(s, f)[2 * k + 1] == f(s[k])[1] {
        assert FlatMap(s, f)[2 * k] == rest[2 * (k - 1)];
        assert FlatMap(s, f)[2 * k + 1] == rest[2 * (k - 1) + 1];
      }
    }
  }

  lemma AppendAssoc<T>(a: seq<T>, b: seq<T>, c: seq<T>)
    ensures (a + b) + c == a + (b + c)
  {
  }

  /** Appending pieces one at a time appends their concatenation. */
  lemma Appended4<T>(s: seq<T>, a: seq<T>, b: seq<T>, c: seq<T>)
    ensures s + a + b + c == s + (a + b + c)
  {
    AppendAssoc(s, a, b);
    AppendAssoc(s, a + b, c);
  }

  lemma Appended5<T>(s: seq<T>, a: seq<T>, b: seq<T>, c: seq<T>, d: seq<T>)
    ensures s + a + b + c + d == s + (a + b + c + d)
  {
    Appended4(s, a, b, c);
    AppendAssoc(s, a + b + c, d);
  }

  lemma Appended6<T>(s: seq<T>, a: seq<T>, b: seq<T>, c: seq<T>, d: seq<T>, e: seq<T>)
    ensures s + a + b + c + d + e == s + (a + b + c + d + e)
  {
    Appended5(s, a, b, c, d);
    AppendAssoc(s, a + b + c + d, e);
  }

  /** Every element of the sequence occurs in it only once. */
  predicate Distinct<T(==)>(s: seq<T>)
  {
    forall i, j :: 0 <= i < j < |s| ==> s[i] != s[j]
  }

  /** Appending a new element keeps a sequence free of repeats. */
  lemma DistinctAppend<T>(s: seq<T>, x: T)
    requires Distinct(s) && x !in s
    ensures Distinct(s + [x])
  {
    forall i, j | 0 <= i < j < |s + [x]| ensures (s + [x])[i] != (s + [x])[j] {
      if j == |s| {
        assert (s + [x])[i] == s[i];
      }
    }
  }

  /** `xs` lists the elements of `s`, each once. */
  ghost predicate Lists<T(!new)>(xs: seq<T>, s: set<T>)
  {
    Distinct(xs) && forall x :: x in xs <==> x in s
  }

  lemma ListsAdd<T(!new)>(xs: seq<T>, s: set<T>, x: T)
    requires Lists(xs, s) && x !in s
    ensures Lists(xs + [x], s + {x})
  {
    DistinctAppend(xs, x);
  }

  /** A listing has as many entries as the set has elements. */
  lemma {:induction false} ListsCount<T(!new)>(xs: seq<T>, s: set<T>)
    requires Lists(xs, s)
    ensures |xs| == |s|
  {
    if xs != [] {
      var init, x := xs[..|xs| - 1], xs[|xs| - 1];
      assert xs == init + [x];
      assert Distinct(init);
      assert x !in init;
      assert Lists(init, s - {x});
      ListsCount(init, s - {x});
    } else {
      assert forall x :: x !in s;
    }
  }

  /** List the elements of a finite set once each, in some order (a set's iteration order). */
  method Enumerate<T(!new)>(s: set<T>) returns (xs: seq<T>)
    ensures Lists(xs, s)
  {
    var remaining := s;
    xs := [];
    while remaining != {}
      invariant remaining <= s
      invariant Lists(xs, s - remaining)
      decreases |remaining|
    {
      var x :| x in remaining;
      ListsAdd(xs, s - remaining, x);
      assert s - remaining + {x} == s - (remaining - {x});
      xs := xs + [x];
      remaining := remaining - {x};
    }
  }

  /** The first `n` elements, or all of them when there are fewer (`s[:n]`). */
  function Take<T>(s: seq<T>, n: nat): (r: seq<T>)
    ensures |r| == if |s| < n then |s| else n
    ensures r <= s
  {
    if |s| <= n then s else s[..n]
  }
}
