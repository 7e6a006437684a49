/** The ordering used by the list screens' `Array.prototype.sort` calls. Every comparator in the
    core compares one key per element: a number (a parsed date, an accuracy, a size, a label
    count) or a string (a name, an id). Strings are ordered by their code units, as JavaScript's
    `<` does. The sort is an insertion sort, stable like the engine's. */
module Sorting {

  datatype Key = Num(n: real) | Text(s: string)

  /** Lexicographic order on code units: `a <= b` for JavaScript strings. */
  predicate LexLe(a: string, b: string)
    decreases |a|
  {
    a == [] || (b != [] && (a[0] < b[0] || (a[0] == b[0] && LexLe(a[1..], b[1..]))))
  }

  lemma {:induction false} LexLeTotal(a: string, b: string)
    ensures LexLe(a, b) || LexLe(b, a)
    decreases |a|
  {
    if a != [] && b != [] && a[0] == b[0] {
      LexLeTotal(a[1..], b[1..]);
    }
  }

  lemma {:induction false} LexLeTransitive(a: string, b: string, c: string)
    requires LexLe(a, b) && LexLe(b, c)
    ensures LexLe(a, c)
    decreases |a|
  {
    if a != [] && b != [] && c != [] && a[0] == b[0] == c[0] {
      LexLeTransitive(a[1..], b[1..], c[1..]);
    }
  }

  lemma {:induction false} LexLeAntisymmetric(a: string, b: string)
    requires LexLe(a, b) && LexLe(b, a)
    ensures a == b
    decreases |a|
  {
    if a != [] && b != [] {
      LexLeAntisymmetric(a[1..], b[1..]);
      assert a == [a[0]] + a[1..] && b == [b[0]] + b[1..];
    }
  }

  /** The order on keys; numbers precede strings (a sort never mixes the two). */
  predicate KeyLe(a: Key, b: Key)
  {
    match (a, b)
    case (Num(x), Num(y)) => x <= y
    case (Text(x), Text(y)) => LexLe(x, y)
    case (Num(_), Text(_)) => true
    case (Text(_), Num(_)) => false
  }

  lemma KeyLeTotal(a: Key, b: Key)
    ensures KeyLe(a, b) || KeyLe(b, a)
  {
    if a.Text? && b.Text? { LexLeTotal(a.s, b.s); }
  }

  lemma KeyLeTransitive(a: Key, b: Key, c: Key)
    requires KeyLe(a, b) && KeyLe(b, c)
    ensures KeyLe(a, c)
  {
    if a.Text? && b.Text? && c.Text? { LexLeTransitive(a.s, b.s, c.s); }
  }

  lemma KeyLeAntisymmetric(a: Key, b: Key)
    requires KeyLe(a, b) && KeyLe(b, a)
    ensures a == b
  {
    if a.Text? && b.Text? { LexLeAntisymmetric(a.s, b.s); }
  }

  /** `a` may come before `b` when sorting ascending (`descending` false) or descending. */
  predicate InOrder(a: Key, b: Key, descending: bool)
  {
    if descending then KeyLe(b, a) else KeyLe(a, b)
  }

  ghost predicate SortedBy<T>(s: seq<T>, key: T -> Key, descending: bool)
  {
    forall i, j :: 0 <= i < j < |s| ==> InOrder(key(s[i]), key(s[j]), descending)
  }

  /** Inserts `x` into the sorted `s` before the first element it may precede. */
  function Insert<T>(x: T, s: seq<T>, key: T -> Key, descending: bool): (r: seq<T>)
    requires SortedBy(s, key, descending)
    ensures multiset(r) == multiset(s) + multiset{x}
    ensures SortedBy(r, key, descending)
  {
    if s == [] then [x]
    else if InOrder(key(x), key(s[0]), descending) then
      var r := [x] + s;
      forall j | 1 <= j < |r| ensures InOrder(key(x), key(r[j]), descending) {
        if j > 1 {
          if descending {
            KeyLeTransitive(key(s[j - 1]), key(s[0]), key(x));
          } else {
            KeyLeTransitive(key(x), key(s[0]), key(s[j - 1]));
          }
        }
      }
      r
    else
      KeyLeTotal(key(x), key(s[0]));
      var rest := Insert(x, s[1..], key, descending);
      assert s == [s[0]] + s[1..];
      var r := [s[0]] + rest;
      forall j | 1 <= j < |r| ensures InOrder(key(s[0]), key(r[j]), descending) {
        assert r[j] in multiset(rest);
        assert r[j] == x || r[j] in multiset(s[1..]);
        if r[j] != x {
          var k :| 0 <= k < |s[1..]| && s[1..][k] == r[j];
          assert s[k + 1] == r[j];
        }
      }
      r
  }

  /** `[...s].sort(cmp)` for a comparator that orders `s` by `key`. */
  function SortByKey<T>(s: seq<T>, key: T -> Key, descending: bool): (r: seq<T>)
    ensures multiset(r) == multiset(s)
    ensures SortedBy(r, key, descending)
  {
    if s == [] then []
    else
      assert s == [s[0]] + s[1..];
      Insert(s[0], SortByKey(s[1..], key, descending), key, descending)
  }

  /** Of two elements with different keys, the one with the smaller key comes first in an
      ascending sort and the one with the larger key in a descending sort. */
  lemma DistinctKeysStrictlyOrdered<T>(r: seq<T>, key: T -> Key, descending: bool, i: int, j: int)
    requires SortedBy(r, key, descending)
    requires 0 <= i < j < |r| && key(r[i]) != key(r[j])
    ensures InOrder(key(r[i]), key(r[j]), descending)
    ensures !InOrder(key(r[j]), key(r[i]), descending)
  {
    if InOrder(key(r[j]), key(r[i]), descending) {
      KeyLeAntisymmetric(key(r[i]), key(r[j]));
    }
  }
}
