/**
 * The order the store sorts rows in: numbers by value, text by code point,
 * and `NULL` after every value in ascending order (so before every value in
 * descending order), as PostgreSQL does by default.
 */
module Ordering {

  /** The value of a row's sort column. */
  datatype SortKey = Num(n: int) | Str(s: string) | NullKey

  /** Lexicographic order on strings, comparing code points. */
  predicate StrLe(a: string, b: string)
    decreases |a|
  {
    a == [] || (b != [] && (a[0] < b[0] || (a[0] == b[0] && StrLe(a[1..], b[1..]))))
  }

  lemma {:induction false} StrLeTotal(a: string, b: string)
    ensures StrLe(a, b) || StrLe(b, a)
    decreases |a|
  {
    if a != [] && b != [] && a[0] == b[0] {
      StrLeTotal(a[1..], b[1..]);
    }
  }

  lemma {:induction false} StrLeTransitive(a: string, b: string, c: string)
    requires StrLe(a, b) && StrLe(b, c)
    ensures StrLe(a, c)
    decreases |a|
  {
    if a != [] && b != [] && c != [] && a[0] == b[0] && b[0] == c[0] {
      StrLeTransitive(a[1..], b[1..], c[1..]);
    }
  }

  lemma {:induction false} StrLeAntisymmetric(a: string, b: string)
    requires StrLe(a, b) && StrLe(b, a)
    ensures a == b
    decreases |a|
  {
    if a != [] {
      StrLeAntisymmetric(a[1..], b[1..]);
    }
  }

  /** The kind rank that orders keys of different kinds; a column only ever holds one kind and `NULL`. */
  function Rank(k: SortKey): int {
    match k
    case Num(_) => 0
    case Str(_) => 1
    case NullKey => 2
  }

  /** Ascending order on keys, `NULL` last. */
  predicate KeyLe(x: SortKey, y: SortKey) {
    if Rank(x) != Rank(y) then Rank(x) < Rank(y)
    else match x
      case Num(n) => n <= y.n
      case Str(s) => StrLe(s, y.s)
      case NullKey => true
  }

  lemma KeyLeTotal(x: SortKey, y: SortKey)
    ensures KeyLe(x, y) || KeyLe(y, x)
  {
    if x.Str? && y.Str? {
      StrLeTotal(x.s, y.s);
    }
  }

  lemma KeyLeTransitive(x: SortKey, y: SortKey, z: SortKey)
    requires KeyLe(x, y) && KeyLe(y, z)
    ensures KeyLe(x, z)
  {
    if x.Str? && y.Str? && z.Str? {
      StrLeTransitive(x.s, y.s, z.s);
    }
  }

  lemma KeyLeAntisymmetric(x: SortKey, y: SortKey)
    requires KeyLe(x, y) && KeyLe(y, x)
    ensures x == y
  {
    if x.Str? && y.Str? {
      StrLeAntisymmetric(x.s, y.s);
    }
  }

  /** `x` may come before `y` in the requested direction: descending reverses the order, so `NULL` comes first. */
  predicate Before(x: SortKey, y: SortKey, ascending: bool) {
    if ascending then KeyLe(x, y) else KeyLe(y, x)
  }

  lemma BeforeTotal(x: SortKey, y: SortKey, ascending: bool)
    ensures Before(x, y, ascending) || Before(y, x, ascending)
  {
    KeyLeTotal(x, y);
  }

  lemma BeforeTransitive(x: SortKey, y: SortKey, z: SortKey, ascending: bool)
    requires Before(x, y, ascending) && Before(y, z, ascending)
    ensures Before(x, z, ascending)
  {
    if ascending {
      KeyLeTransitive(x, y, z);
    } else {
      KeyLeTransitive(z, y, x);
    }
  }

  /** Keys that may each come before the other are the same key. */
  lemma BeforeAntisymmetric(x: SortKey, y: SortKey, ascending: bool)
    requires Before(x, y, ascending) && Before(y, x, ascending)
    ensures x == y
  {
    KeyLeAntisymmetric(x, y);
  }

  /** `NULL` sorts after every value in ascending order and before every value in descending order. */
  lemma NullPlacement(x: SortKey)
    ensures Before(x, NullKey, true)
    ensures Before(NullKey, x, false)
    ensures x != NullKey ==> !Before(NullKey, x, true) && !Before(x, NullKey, false)
  {
  }

  /** `s` is ordered by `key` in the requested direction. */
  predicate SortedOn<T>(s: seq<T>, key: T -> SortKey, ascending: bool) {
    forall i, j :: 0 <= i < j < |s| ==> Before(key(s[i]), key(s[j]), ascending)
  }

  /** `x` placed in front of the first element it may precede. */
  function Insert<T(==)>(x: T, s: seq<T>, key: T -> SortKey, ascending: bool): (r: seq<T>)
    requires SortedOn(s, key, ascending)
    ensures SortedOn(r, key, ascending)
    ensures multiset(r) == multiset(s) + multiset{x}
  {
    if s == [] then [x]
    else if Before(key(x), key(s[0]), ascending) then
      forall j | 0 < j < |s| ensures Before(key(x), key(s[j]), ascending) {
        BeforeTransitive(key(x), key(s[0]), key(s[j]), ascending);
      }
      [x] + s
    else
      BeforeTotal(key(x), key(s[0]), ascending);
      var rest := Insert(x, s[1..], key, ascending);
      assert s == [s[0]] + s[1..];
      forall j | 0 <= j < |rest| ensures Before(key(s[0]), key(rest[j]), ascending) {
        assert rest[j] in multiset(rest);
        if rest[j] != x {
          assert rest[j] in multiset(s[1..]);
          var k :| 0 <= k < |s[1..]| && s[1..][k] == rest[j];
          assert s[k + 1] == rest[j];
        }
      }
      [s[0]] + rest
  }

  /** The rows in the order a query returns them: sorted by `key`, and a permutation of the input. */
  function SortOn<T(==)>(s: seq<T>, key: T -> SortKey, ascending: bool): (r: seq<T>)
    ensures SortedOn(r, key, ascending)
    ensures multiset(r) == multiset(s)
  {
    if s == [] then []
    else
      assert s == [s[0]] + s[1..];
      Insert(s[0], SortOn(s[1..], key, ascending), key, ascending)
  }

  /** No two different elements of `s` share a sort key. */
  predicate UniqueKeys<T(==)>(s: seq<T>, key: T -> SortKey) {
    forall x, y :: x in s && y in s && key(x) == key(y) ==> x == y
  }

  /** With no two rows sharing a key, the sorted order is determined: any two sorted arrangements
      of the same rows are the same sequence. */
  lemma {:induction false} SortedPermutationUnique<T>(a: seq<T>, b: seq<T>, key: T -> SortKey, ascending: bool)
    requires SortedOn(a, key, ascending) && SortedOn(b, key, ascending)
    requires multiset(a) == multiset(b)
    requires UniqueKeys(a, key)
    ensures a == b
    decreases |a|
  {
    if a == [] {
      assert |b| == |multiset(b)| == 0;
    } else {
      SortedHeadsAgree(a, b, key, ascending);
      SameTails(a, b);
      assert SortedOn(a[1..], key, ascending) && SortedOn(b[1..], key, ascending);
      forall x, y | x in a[1..] && y in a[1..] && key(x) == key(y) ensures x == y {
        assert x in a && y in a;
      }
      SortedPermutationUnique(a[1..], b[1..], key, ascending);
      assert a == [a[0]] + a[1..] && b == [b[0]] + b[1..];
    }
  }

  /** Two sorted arrangements of the same non-empty rows, no two sharing a key, start alike. */
  lemma SortedHeadsAgree<T>(a: seq<T>, b: seq<T>, key: T -> SortKey, ascending: bool)
    requires SortedOn(a, key, ascending) && SortedOn(b, key, ascending)
    requires multiset(a) == multiset(b) && a != []
    requires UniqueKeys(a, key)
    ensures b != [] && a[0] == b[0]
  {
    assert a[0] in multiset(b);
    assert b[0] in multiset(a);
    var m :| 0 <= m < |a| && a[m] == b[0];
    var n :| 0 <= n < |b| && b[n] == a[0];
    if m != 0 && n != 0 {
      BeforeAntisymmetric(key(a[0]), key(b[0]), ascending);
    }
  }

  /** Removing the same first element from two arrangements of the same rows leaves arrangements of the same rows. */
  lemma SameTails<T>(a: seq<T>, b: seq<T>)
    requires multiset(a) == multiset(b) && a != [] && b != [] && a[0] == b[0]
    ensures multiset(a[1..]) == multiset(b[1..])
  {
    assert a == [a[0]] + a[1..];
    assert b == [b[0]] + b[1..];
    assert multiset(a) == multiset([a[0]]) + multiset(a[1..]);
    assert multiset(b) == multiset([b[0]]) + multiset(b[1..]);
    forall x ensures multiset(a[1..])[x] == multiset(b[1..])[x] {
      assert multiset(a)[x] == multiset([a[0]])[x] + multiset(a[1..])[x];
      assert multiset(b)[x] == multiset([b[0]])[x] + multiset(b[1..])[x];
    }
  }
}
