/** Value helpers shared by every module: optional values, JavaScript
    truthiness of strings, ASCII case mapping, and the order in which a
    JavaScript object or Map keeps the keys inserted into it. */
module Common {

  datatype Option<+T> = None | Some(value: T)

  /** JavaScript truthiness of a possibly missing string: present and non-empty. */
  predicate Truthy(s: Option<string>)
  {
    s.Some? && s.value != ""
  }

  /** The expression `a || b` on possibly missing strings. */
  function Or(a: Option<string>, b: Option<string>): Option<string>
  {
    if Truthy(a) then a else b
  }

  /** The expression `a || d` where `d` is a string literal default. */
  function OrElse(a: Option<string>, d: string): string
  {
    if Truthy(a) then a.value else d
  }

  function UpperChar(c: char): char
  {
    if 'a' <= c <= 'z' then (c as int - 32) as char else c
  }

  function LowerChar(c: char): char
  {
    if 'A' <= c <= 'Z' then (c as int + 32) as char else c
  }

  /** `toUpperCase()`, on the ASCII letters. */
  function Upper(s: string): string
  {
    seq(|s|, i requires 0 <= i < |s| => UpperChar(s[i]))
  }

  /** `toLowerCase()`, on the ASCII letters. */
  function Lower(s: string): string
  {
    seq(|s|, i requires 0 <= i < |s| => LowerChar(s[i]))
  }

  lemma UpperIdempotent(s: string)
    ensures Upper(Upper(s)) == Upper(s)
  {
  }

  predicate NoDup<T(==)>(s: seq<T>)
  {
    forall i, j :: 0 <= i < j < |s| ==> s[i] != s[j]
  }

  /** The distinct elements of `s` in the order of their first appearance:
      the key order of a JavaScript object or Map filled from `s`. */
  function Distinct<T(==,!new)>(s: seq<T>): (r: seq<T>)
    ensures NoDup(r)
    ensures forall x :: x in r <==> x in s
  {
    if s == [] then []
    else
      var prev := Distinct(s[..|s| - 1]);
      if s[|s| - 1] in prev then prev else prev + [s[|s| - 1]]
  }

  /** One more element: it is appended to the distinct elements unless already among them. */
  lemma DistinctAppend<T(!new)>(s: seq<T>, x: T)
    ensures Distinct(s + [x]) == if x in Distinct(s) then Distinct(s) else Distinct(s) + [x]
  {
    assert (s + [x])[..|s|] == s;
  }

  /** `Array.prototype.filter`: the elements that pass `p`, in their
      order, every copy of each. */
  function Filter<T(==,!new)>(p: T -> bool, xs: seq<T>): (r: seq<T>)
    ensures |r| <= |xs|
    ensures forall x :: x in r <==> x in xs && p(x)
  {
    if xs == [] then []
    else
      var last := xs[|xs| - 1];
      assert xs == xs[..|xs| - 1] + [last];
      Filter(p, xs[..|xs| - 1]) + (if p(last) then [last] else [])
  }

  /** Filtering keeps order: the filter of a concatenation is the
      concatenation of the filters. */
  lemma {:induction false} FilterAppend<T(!new)>(p: T -> bool, a: seq<T>, b: seq<T>)
    ensures Filter(p, a + b) == Filter(p, a) + Filter(p, b)
  {
    if b == [] {
      assert a + b == a;
    } else {
      var init, last := b[..|b| - 1], b[|b| - 1];
      var kept := if p(last) then [last] else [];
      assert b == init + [last];
      assert a + b == (a + init) + [last];
      calc {
        Filter(p, a + b);
        == { FilterSnoc(p, a + init, last); }
        Filter(p, a + init) + kept;
        == { FilterAppend(p, a, init); }
        (Filter(p, a) + Filter(p, init)) + kept;
        == { FilterSnoc(p, init, last); }
        Filter(p, a) + Filter(p, b);
      }
    }
  }

  /** One more element is kept at the end exactly when it passes. */
  lemma FilterSnoc<T(!new)>(p: T -> bool, xs: seq<T>, x: T)
    ensures Filter(p, xs + [x]) == Filter(p, xs) + (if p(x) then [x] else [])
  {
    assert (xs + [x])[..|xs|] == xs;
  }

  /** Filtering keeps every copy of an element that passes and no copy of
      one that does not. */
  lemma {:induction false} FilterCount<T(!new)>(p: T -> bool, xs: seq<T>)
    ensures forall x :: multiset(Filter(p, xs))[x] == if p(x) then multiset(xs)[x] else 0
  {
    if xs != [] {
      var init, last := xs[..|xs| - 1], xs[|xs| - 1];
      assert xs == init + [last];
      FilterCount(p, init);
    }
  }

  /** `Array.prototype.map`. */
  function Mapped<T, U>(f: T -> U, xs: seq<T>): (r: seq<U>)
    ensures |r| == |xs| && forall i :: 0 <= i < |xs| ==> r[i] == f(xs[i])
  {
    seq(|xs|, i requires 0 <= i < |xs| => f(xs[i]))
  }

  /** Mapping a non-empty sequence maps its front, then its last element. */
  lemma MappedLast<T, U>(f: T -> U, xs: seq<T>)
    requires xs != []
    ensures Mapped(f, xs) == Mapped(f, xs[..|xs| - 1]) + [f(xs[|xs| - 1])]
  {
  }

  /** A prefix one element longer is the shorter prefix and that element. */
  lemma TakeSnoc<T>(s: seq<T>, i: nat)
    requires i < |s|
    ensures s[..i + 1] == s[..i] + [s[i]]
  {
  }

  /** The indices 0 .. n-1. */
  function RangeSet(n: nat): (r: set<nat>)
    ensures forall i: nat :: i in r <==> i < n
    ensures |r| == n
  {
    if n == 0 then {} else RangeSet(n - 1) + {n - 1}
  }

  /** `Math.round`: the nearest integer, halves rounded up. */
  function RoundHalfUp(x: real): (r: int)
    ensures r as real - 0.5 <= x < r as real + 0.5
  {
    (x + 0.5).Floor
  }
}
