/**
 * Sequence operations the storefront uses everywhere: `Array.prototype.filter`,
 * `find`/`findIndex`, and the facts about them that the other modules rely on.
 */
module Seqs {
  import opened Options

  /** `s.filter(f)`: the elements of `s` satisfying `f`, in their original order. */
  function Filter<T(!new)>(f: T -> bool, s: seq<T>): (r: seq<T>)
    ensures |r| <= |s|
    ensures forall i :: 0 <= i < |r| ==> f(r[i])
    ensures forall x :: x in r <==> x in s && f(x)
  {
    if s == [] then []
    else if f(s[0]) then [s[0]] + Filter(f, s[1..])
    else Filter(f, s[1..])
  }

  /** Filtering keeps the order of what it keeps. */
  lemma {:induction false} FilterIsSubsequence<T(!new)>(f: T -> bool, s: seq<T>)
    ensures IsSubsequence(Filter(f, s), s)
  {
    if s != [] {
      FilterIsSubsequence(f, s[1..]);
    }
  }

  /** `a` can be obtained from `b` by deleting elements (order is kept). */
  ghost predicate IsSubsequence<T(!new)>(a: seq<T>, b: seq<T>)
    decreases |b|
  {
    if a == [] then true
    else if b == [] then false
    else if a[0] == b[0] then IsSubsequence(a[1..], b[1..])
    else IsSubsequence(a, b[1..])
  }

  /** A prefix of a subsequence of `c` is a subsequence of `c`. */
  lemma {:induction false} PrefixIsSubsequence<T(!new)>(a: seq<T>, b: seq<T>, c: seq<T>)
    requires |a| <= |b| && a == b[..|a|] && IsSubsequence(b, c)
    ensures IsSubsequence(a, c)
    decreases |c|
  {
    if a != [] && c != [] {
      if b[0] == c[0] {
        PrefixIsSubsequence(a[1..], b[1..], c[1..]);
      } else {
        PrefixIsSubsequence(a, b, c[1..]);
      }
    }
  }

  /** Index of the first element satisfying `f` (`findIndex`, with `None` for -1). */
  function FirstIndex<T(!new)>(f: T -> bool, s: seq<T>): (r: Option<nat>)
    ensures r.Some? ==> r.value < |s| && f(s[r.value])
    ensures r.Some? ==> forall j :: 0 <= j < r.value ==> !f(s[j])
    ensures r.None? <==> forall j :: 0 <= j < |s| ==> !f(s[j])
  {
    if s == [] then None
    else if f(s[0]) then Some(0)
    else match FirstIndex(f, s[1..])
      case None => None
      case Some(i) => Some(i + 1)
  }

  /** No two elements of `s` have the same key. */
  ghost predicate KeysDistinct<T(!new), K>(key: T -> K, s: seq<T>) {
    forall i, j :: 0 <= i < j < |s| ==> key(s[i]) != key(s[j])
  }

  lemma {:induction false} FilterConcat<T(!new)>(f: T -> bool, a: seq<T>, b: seq<T>)
    ensures Filter(f, a + b) == Filter(f, a) + Filter(f, b)
  {
    if a == [] {
      assert a + b == b;
    } else {
      assert (a + b)[1..] == a[1..] + b;
      FilterConcat(f, a[1..], b);
    }
  }

  /** Filtering a prefix one element longer. */
  lemma FilterSnoc<T(!new)>(f: T -> bool, s: seq<T>, i: nat)
    requires i < |s|
    ensures Filter(f, s[..i + 1]) == Filter(f, s[..i]) + (if f(s[i]) then [s[i]] else [])
  {
    assert s[..i + 1] == s[..i] + [s[i]];
    FilterConcat(f, s[..i], [s[i]]);
    assert [s[i]][1..] == [];
  }

  /**
   * One step of deleting, in place, the elements failing `f`: with the
   * first `i` elements of `s` already filtered, element `i` sits at index
   * `j`, and keeping it or deleting it extends the filtered prefix by one.
   */
  lemma FilterInPlaceStep<T(!new)>(f: T -> bool, s: seq<T>, i: nat, cur: seq<T>, j: nat)
    requires i < |s|
    requires cur == Filter(f, s[..i]) + s[i..] && j == |Filter(f, s[..i])|
    ensures j < |cur| && cur[j] == s[i]
    ensures f(s[i]) ==> cur == Filter(f, s[..i + 1]) + s[i + 1..]
    ensures !f(s[i]) ==> cur[..j] + cur[j + 1..] == Filter(f, s[..i + 1]) + s[i + 1..]
  {
    FilterSnoc(f, s, i);
    assert s[i..] == [s[i]] + s[i + 1..];
    if !f(s[i]) {
      assert cur[..j] == Filter(f, s[..i]);
      assert cur[j + 1..] == s[i + 1..];
    }
  }

  /**
   * A walk over `s` in order that deletes, in place, every element failing
   * `keep` (the `for ... of entries()` / `delete` loop over a `Map`).
   */
  method DeleteWhere<T(!new)>(keep: T -> bool, s: seq<T>) returns (items: seq<T>)
    ensures items == Filter(keep, s)
  {
    items := s;
    var i, j := 0, 0;
    while i < |s|
      invariant 0 <= i <= |s|
      invariant items == Filter(keep, s[..i]) + s[i..]
      invariant j == |Filter(keep, s[..i])|
    {
      FilterInPlaceStep(keep, s, i, items, j);
      if !keep(items[j]) {
        items := items[..j] + items[j + 1..];
      } else {
        j := j + 1;
      }
      i := i + 1;
    }
    assert s[..i] == s;
  }

  /** Two filters applied one after the other are one filter by their conjunction. */
  lemma {:induction false} FilterThen<T(!new)>(f: T -> bool, g: T -> bool, h: T -> bool, s: seq<T>)
    requires forall x :: h(x) == (f(x) && g(x))
    ensures Filter(g, Filter(f, s)) == Filter(h, s)
  {
    if s != [] {
      FilterThen(f, g, h, s[1..]);
      if f(s[0]) {
        assert Filter(f, s) == [s[0]] + Filter(f, s[1..]);
        assert Filter(f, s)[1..] == Filter(f, s[1..]);
      }
    }
  }

  /** Filters that agree on the elements of `s` select the same thing. */
  lemma {:induction false} FilterSame<T(!new)>(f: T -> bool, g: T -> bool, s: seq<T>)
    requires forall i :: 0 <= i < |s| ==> f(s[i]) == g(s[i])
    ensures Filter(f, s) == Filter(g, s)
  {
    if s != [] {
      FilterSame(f, g, s[1..]);
    }
  }

  /** A filter every element passes changes nothing. */
  lemma {:induction false} FilterKeepsAll<T(!new)>(f: T -> bool, s: seq<T>)
    requires forall i :: 0 <= i < |s| ==> f(s[i])
    ensures Filter(f, s) == s
  {
    if s != [] {
      FilterKeepsAll(f, s[1..]);
      assert s == [s[0]] + s[1..];
    }
  }

  /** A filter no element passes yields the empty sequence. */
  lemma FilterKeepsNone<T(!new)>(f: T -> bool, s: seq<T>)
    requires forall i :: 0 <= i < |s| ==> !f(s[i])
    ensures Filter(f, s) == []
  {
  }

  /** The two halves of a partition together hold exactly the original elements. */
  lemma {:induction false} FilterSplit<T(!new)>(f: T -> bool, g: T -> bool, s: seq<T>)
    requires forall x :: g(x) == !f(x)
    ensures multiset(Filter(f, s)) + multiset(Filter(g, s)) == multiset(s)
  {
    if s != [] {
      FilterSplit(f, g, s[1..]);
      assert s == [s[0]] + s[1..];
    }
  }

  lemma KeysDistinctCons<T(!new), K>(key: T -> K, y: T, t: seq<T>)
    ensures KeysDistinct(key, [y] + t) <==>
      KeysDistinct(key, t) && forall i :: 0 <= i < |t| ==> key(t[i]) != key(y)
  {
    var s := [y] + t;
    if KeysDistinct(key, s) {
      forall i, j | 0 <= i < j < |t| ensures key(t[i]) != key(t[j]) {
        assert t[i] == s[i + 1] && t[j] == s[j + 1];
      }
      forall i | 0 <= i < |t| ensures key(t[i]) != key(y) {
        assert t[i] == s[i + 1] && y == s[0];
        assert key(s[0]) != key(s[i + 1]);
      }
    }
  }

  /** Deleting elements cannot create two elements with the same key. */
  lemma {:induction false} FilterKeepsKeysDistinct<T(!new), K>(key: T -> K, f: T -> bool, s: seq<T>)
    requires KeysDistinct(key, s)
    ensures KeysDistinct(key, Filter(f, s))
  {
    if s != [] {
      var t := s[1..];
      assert s == [s[0]] + t;
      KeysDistinctCons(key, s[0], t);
      FilterKeepsKeysDistinct(key, f, t);
      if f(s[0]) {
        var u := Filter(f, t);
        forall i | 0 <= i < |u| ensures key(u[i]) != key(s[0]) {
          assert u[i] in t;
        }
        KeysDistinctCons(key, s[0], u);
      }
    }
  }

  /** Appending an element whose key is new keeps the keys distinct. */
  lemma KeysDistinctSnoc<T(!new), K>(key: T -> K, s: seq<T>, y: T)
    requires KeysDistinct(key, s)
    requires forall i :: 0 <= i < |s| ==> key(s[i]) != key(y)
    ensures KeysDistinct(key, s + [y])
  {
    var r := s + [y];
    forall i, j | 0 <= i < j < |r| ensures key(r[i]) != key(r[j]) {
      assert r[i] == s[i];
      if j < |s| {
        assert r[j] == s[j];
      }
    }
  }

  /** Replacing an element by one with the same key keeps the keys distinct. */
  lemma KeysDistinctUpdate<T(!new), K>(key: T -> K, s: seq<T>, i: nat, y: T)
    requires KeysDistinct(key, s) && i < |s| && key(y) == key(s[i])
    ensures KeysDistinct(key, s[i := y])
  {
    var r := s[i := y];
    forall a, b | 0 <= a < b < |r| ensures key(r[a]) != key(r[b]) {
      assert key(r[a]) == key(s[a]) && key(r[b]) == key(s[b]);
    }
  }

  /**
   * One guarded step of a filter pipeline: if the step is active, filtering
   * by `g` what the earlier filters (`prev`) kept is filtering by `next`,
   * their conjunction; if it is not, `next` is `prev`.
   */
  lemma FilterStep<T(!new)>(all: seq<T>, prev: T -> bool, active: bool, g: T -> bool, next: T -> bool)
    requires forall x :: next(x) == (prev(x) && (active ==> g(x)))
    ensures (if active then Filter(g, Filter(prev, all)) else Filter(prev, all)) == Filter(next, all)
  {
    if active {
      FilterThen(prev, g, next, all);
    } else {
      FilterSame(prev, next, all);
    }
  }

  /** With distinct keys, the elements `g` selects, those whose key is that of `s[i]`, are exactly `s[i]`. */
  lemma {:induction false} FilterSingleKey<T(!new), K>(key: T -> K, g: T -> bool, s: seq<T>, i: nat)
    requires KeysDistinct(key, s) && i < |s|
    requires forall x :: g(x) == (key(x) == key(s[i]))
    ensures Filter(g, s) == [s[i]]
  {
    var t := s[1..];
    assert s == [s[0]] + t;
    KeysDistinctCons(key, s[0], t);
    if i == 0 {
      FilterKeepsNone(g, t);
    } else {
      assert s[i] == t[i - 1];
      FilterSingleKey(key, g, t, i - 1);
    }
  }
}
