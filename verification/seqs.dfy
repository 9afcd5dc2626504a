/** The list operations the components build their state transitions from:
    `Array.prototype.filter`, "remove every copy of a value", the
    "toggle membership" idiom `xs.includes(x) ? xs.filter(y => y !== x) : [...xs, x]`,
    and `slice(0, n)`. */
module Seqs {

  /** `s.filter(keep)`. Its element-wise meaning is stated by `FilterFacts`,
      which callers invoke where they need it. */
  function Filter<T>(s: seq<T>, keep: T -> bool): seq<T>
    decreases |s|
  {
    if |s| == 0 then []
    else if keep(s[0]) then [s[0]] + Filter(s[1..], keep)
    else Filter(s[1..], keep)
  }

  /** The elements of `s.filter(keep)` are those of `s` that satisfy `keep`,
      each kept element exactly as often as it occurs in `s`. */
  lemma FilterFacts<T(!new)>(s: seq<T>, keep: T -> bool)
    ensures |Filter(s, keep)| <= |s|
    ensures forall i :: 0 <= i < |Filter(s, keep)| ==> keep(Filter(s, keep)[i])
    ensures forall x :: x in Filter(s, keep) <==> x in s && keep(x)
    ensures forall x :: multiset(Filter(s, keep))[x] == if keep(x) then multiset(s)[x] else 0
  {
    FilterLength(s, keep);
    FilterCounts(s, keep);
    var r := Filter(s, keep);
    forall i | 0 <= i < |r|
      ensures keep(r[i])
    {
      assert multiset(r)[r[i]] > 0;
    }
  }

  /** Each element occurs in the filter as often as in `s` if it passes,
      and not at all otherwise. */
  lemma {:induction false} FilterCounts<T(!new)>(s: seq<T>, keep: T -> bool)
    ensures forall x :: multiset(Filter(s, keep))[x] == if keep(x) then multiset(s)[x] else 0
    decreases |s|
  {
    if |s| > 0 {
      var t := s[1..];
      FilterCounts(t, keep);
      assert s == [s[0]] + t;
      var head := if keep(s[0]) then [s[0]] else [];
      assert Filter(s, keep) == head + Filter(t, keep);
      assert multiset(s) == multiset([s[0]]) + multiset(t);
      assert multiset(Filter(s, keep)) == multiset(head) + multiset(Filter(t, keep));
    }
  }

  /** One step of the filter: the head is kept or dropped, the tail is filtered. */
  lemma FilterCons<T>(x: T, s: seq<T>, keep: T -> bool)
    ensures Filter([x] + s, keep) == (if keep(x) then [x] else []) + Filter(s, keep)
  {
    assert ([x] + s)[0] == x && ([x] + s)[1..] == s;
  }

  /** `[x]` when `keep(x)`, nothing otherwise. */
  function KeptIf<T>(keep: T -> bool, x: T): seq<T> {
    if keep(x) then [x] else []
  }

  /** `[x]` when `k`, nothing otherwise. */
  function Pick<T>(k: bool, x: T): seq<T> {
    if k then [x] else []
  }

  /** A filter of four elements whose verdicts are known keeps those that
      pass, in order. */
  lemma FilterFour<T>(a: T, b: T, c: T, d: T, keep: T -> bool, ka: bool, kb: bool, kc: bool, kd: bool)
    requires keep(a) == ka && keep(b) == kb && keep(c) == kc && keep(d) == kd
    ensures Filter([a, b, c, d], keep) == Pick(ka, a) + (Pick(kb, b) + (Pick(kc, c) + Pick(kd, d)))
  {
    assert Filter([d], keep) == Pick(kd, d);
    assert Filter([c, d], keep) == Pick(kc, c) + Pick(kd, d) by {
      FilterCons(c, [d], keep);
      assert [c, d] == [c] + [d];
    }
    assert Filter([b, c, d], keep) == Pick(kb, b) + (Pick(kc, c) + Pick(kd, d)) by {
      FilterCons(b, [c, d], keep);
      assert [b, c, d] == [b] + [c, d];
    }
    FilterCons(a, [b, c, d], keep);
    assert [a, b, c, d] == [a] + [b, c, d];
  }

  /** The same for five elements. */
  lemma FilterFive<T>(a: T, b: T, c: T, d: T, e: T, keep: T -> bool, ka: bool, kb: bool, kc: bool, kd: bool, ke: bool)
    requires keep(a) == ka && keep(b) == kb && keep(c) == kc && keep(d) == kd && keep(e) == ke
    ensures Filter([a, b, c, d, e], keep) == Pick(ka, a) + (Pick(kb, b) + (Pick(kc, c) + (Pick(kd, d) + Pick(ke, e))))
  {
    FilterFour(b, c, d, e, keep, kb, kc, kd, ke);
    FilterCons(a, [b, c, d, e], keep);
    assert [a, b, c, d, e] == [a] + [b, c, d, e];
  }

  /** Filtering distributes over concatenation: the kept elements of `s`
      stay in front of the kept elements of `t`, so `Filter` preserves order. */
  lemma {:induction false} FilterConcat<T(!new)>(s: seq<T>, t: seq<T>, keep: T -> bool)
    ensures Filter(s + t, keep) == Filter(s, keep) + Filter(t, keep)
    decreases |s|
  {
    if |s| > 0 {
      var u := s + t;
      assert u[0] == s[0] && u[1..] == s[1..] + t;
      FilterConcat(s[1..], t, keep);
      assert Filter(u, keep) == (if keep(s[0]) then [s[0]] else []) + Filter(s[1..] + t, keep);
    } else {
      assert s + t == t;
    }
  }

  /** When every element passes, filtering changes nothing. */
  lemma {:induction false} FilterAll<T(!new)>(s: seq<T>, keep: T -> bool)
    requires forall x :: x in s ==> keep(x)
    ensures Filter(s, keep) == s
    decreases |s|
  {
    if |s| > 0 {
      FilterAll(s[1..], keep);
    }
  }

  /** Two successive filters keep exactly what one filter by the conjunction keeps. */
  lemma {:induction false} FilterFilter<T(!new)>(s: seq<T>, first: T -> bool, second: T -> bool, both: T -> bool)
    requires forall x :: both(x) == (first(x) && second(x))
    ensures Filter(Filter(s, first), second) == Filter(s, both)
    decreases |s|
  {
    if |s| > 0 {
      FilterFilter(s[1..], first, second, both);
      if first(s[0]) {
        assert Filter(s, first) == [s[0]] + Filter(s[1..], first);
        assert Filter(s, first)[0] == s[0] && Filter(s, first)[1..] == Filter(s[1..], first);
      }
    }
  }

  /** A filter that rejects some element of `s` returns a shorter list. */
  lemma {:induction false} FilterShrinks<T>(s: seq<T>, keep: T -> bool, i: nat)
    requires i < |s| && !keep(s[i])
    ensures |Filter(s, keep)| < |s|
    decreases |s|
  {
    if i == 0 {
      FilterLength(s[1..], keep);
    } else {
      FilterShrinks(s[1..], keep, i - 1);
    }
  }

  lemma {:induction false} FilterLength<T>(s: seq<T>, keep: T -> bool)
    ensures |Filter(s, keep)| <= |s|
    decreases |s|
  {
    if |s| > 0 {
      FilterLength(s[1..], keep);
    }
  }

  /** Filters that agree on every element keep the same elements. */
  lemma {:induction false} FilterAgree<T(!new)>(s: seq<T>, keep: T -> bool, same: T -> bool)
    requires forall x :: x in s ==> keep(x) == same(x)
    ensures Filter(s, keep) == Filter(s, same)
    decreases |s|
  {
    if |s| > 0 {
      FilterAgree(s[1..], keep, same);
    }
  }

  /** A stable partition `s.filter(keep).concat(s.filter(drop))`, with `drop`
      the negation of `keep`, is a permutation of `s`. */
  lemma PartitionPermutes<T(!new)>(s: seq<T>, keep: T -> bool, drop: T -> bool)
    requires forall x :: drop(x) == !keep(x)
    ensures multiset(Filter(s, keep) + Filter(s, drop)) == multiset(s)
  {
    FilterFacts(s, keep);
    FilterFacts(s, drop);
    var m := multiset(Filter(s, keep) + Filter(s, drop));
    forall x
      ensures m[x] == multiset(s)[x]
    {
    }
  }

  /** `s.filter(y => y !== x)`: every copy of `x` removed, the rest in order. */
  function RemoveAll<T(==,!new)>(s: seq<T>, x: T): (r: seq<T>)
    ensures x !in r
    ensures forall y :: y != x ==> (y in r <==> y in s)
    ensures forall y :: y != x ==> multiset(r)[y] == multiset(s)[y]
    ensures |r| <= |s|
    decreases |s|
  {
    if |s| == 0 then []
    else
      assert s == [s[0]] + s[1..];
      if s[0] == x then RemoveAll(s[1..], x) else [s[0]] + RemoveAll(s[1..], x)
  }

  /** Removing a value that is absent changes nothing. */
  lemma {:induction false} RemoveAbsent<T(!new)>(s: seq<T>, x: T)
    requires x !in s
    ensures RemoveAll(s, x) == s
    decreases |s|
  {
    if |s| > 0 {
      RemoveAbsent(s[1..], x);
    }
  }

  /** Removing a value from a run of copies of it leaves nothing. */
  lemma {:induction false} RemoveAllCopies<T(!new)>(s: seq<T>, x: T)
    requires forall i :: 0 <= i < |s| ==> s[i] == x
    ensures RemoveAll(s, x) == []
    decreases |s|
  {
    if |s| > 0 {
      RemoveAllCopies(s[1..], x);
    }
  }

  /** Removing distributes over concatenation (order of the survivors is kept). */
  lemma {:induction false} RemoveConcat<T(!new)>(s: seq<T>, t: seq<T>, x: T)
    ensures RemoveAll(s + t, x) == RemoveAll(s, x) + RemoveAll(t, x)
    decreases |s|
  {
    if |s| > 0 {
      var u := s + t;
      assert u[0] == s[0] && u[1..] == s[1..] + t;
      RemoveConcat(s[1..], t, x);
      assert RemoveAll(u, x) == (if s[0] == x then [] else [s[0]]) + RemoveAll(s[1..] + t, x);
    } else {
      assert s + t == t;
    }
  }

  /** The toggle idiom: remove every copy of a present value, append an absent one. */
  function Toggle<T(==,!new)>(s: seq<T>, x: T): (r: seq<T>)
    ensures x in r <==> x !in s
    ensures forall y :: y != x ==> (y in r <==> y in s)
  {
    if x in s then RemoveAll(s, x) else s + [x]
  }

  /** Toggling an absent value appends it at the end. */
  lemma ToggleAbsentAppends<T(!new)>(s: seq<T>, x: T)
    requires x !in s
    ensures Toggle(s, x) == s + [x]
  {
  }

  /** Toggling a present value removes every copy and keeps the rest in order. */
  lemma ToggleRemovesAll<T(!new)>(s: seq<T>, x: T)
    requires x in s
    ensures Toggle(s, x) == RemoveAll(s, x)
    ensures multiset(Toggle(s, x))[x] == 0
  {
  }

  /** Toggling an absent value twice restores the original list. */
  lemma ToggleTwice<T(!new)>(s: seq<T>, x: T)
    requires x !in s
    ensures Toggle(Toggle(s, x), x) == s
  {
    RemoveConcat(s, [x], x);
    RemoveAbsent(s, x);
    assert RemoveAll([x], x) == [];
  }

  /** `s.slice(0, n)` for n >= 0. */
  function Take<T>(s: seq<T>, n: nat): (r: seq<T>)
    ensures |r| == if |s| < n then |s| else n
    ensures r == s[..|r|]
  {
    if |s| < n then s else s[..n]
  }
}
