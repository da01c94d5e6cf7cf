/**
 * The list sorting shared by the admin pages and the status page:
 * `[...list].sort(comparator)` where the comparator takes one key from each
 * element and answers -1, 0 or 1 by `<` and `>` on the keys, flipped for a
 * descending order. `Array.prototype.sort` is stable, so elements whose keys
 * compare 0 keep their order; `SortBy` is a stable insertion sort.
 */
module Sorting {
  import opened Seqs

  datatype Direction = Asc | Desc

  /** The order flipped: `sortOrder === 'asc' ? 'desc' : 'asc'`. */
  function Flip(d: Direction): (r: Direction)
    ensures r != d
  {
    if d == Asc then Desc else Asc
  }

  /**
   * A sort key: a number (a count, an amount, a time, or a boolean as 0/1,
   * which is how `<` compares booleans) or a text. Every comparator uses keys
   * of one kind; numbers are put before texts only to make the order total.
   */
  datatype Key = ByNumber(n: int) | ByText(s: string)

  /** `a < b` on texts: by character codes, a proper prefix first. */
  predicate TextLess(a: string, b: string)
  {
    if a == [] then b != []
    else if b == [] then false
    else if a[0] != b[0] then a[0] < b[0]
    else TextLess(a[1..], b[1..])
  }

  lemma {:induction false} TextLessIrreflexive(a: string)
    ensures !TextLess(a, a)
  {
    if a != [] {
      TextLessIrreflexive(a[1..]);
    }
  }

  lemma {:induction false} TextLessTransitive(a: string, b: string, c: string)
    requires TextLess(a, b) && TextLess(b, c)
    ensures TextLess(a, c)
  {
    if a != [] && b != [] && c != [] && a[0] == b[0] && b[0] == c[0] {
      TextLessTransitive(a[1..], b[1..], c[1..]);
    }
  }

  lemma {:induction false} TextLessTotal(a: string, b: string)
    ensures a == b || TextLess(a, b) || TextLess(b, a)
  {
    if a != [] && b != [] && a[0] == b[0] {
      TextLessTotal(a[1..], b[1..]);
      if a[1..] == b[1..] {
        assert a == [a[0]] + a[1..] && b == [b[0]] + b[1..];
      }
    }
  }

  predicate Less(a: Key, b: Key)
  {
    match (a, b)
    case (ByNumber(x), ByNumber(y)) => x < y
    case (ByText(x), ByText(y)) => TextLess(x, y)
    case (ByNumber(_), ByText(_)) => true
    case (ByText(_), ByNumber(_)) => false
  }

  /** `<` on keys is a strict total order. */
  lemma {:induction false} LessOrder(a: Key, b: Key, c: Key)
    ensures !Less(a, a)
    ensures Less(a, b) && Less(b, c) ==> Less(a, c)
    ensures a == b || Less(a, b) || Less(b, a)
  {
    if a.ByText? {
      TextLessIrreflexive(a.s);
      if b.ByText? {
        TextLessTotal(a.s, b.s);
        if c.ByText? && Less(a, b) && Less(b, c) {
          TextLessTransitive(a.s, b.s, c.s);
        }
      }
    }
  }

  /** The comparator: `if (a < b) return asc ? -1 : 1; if (a > b) return asc ? 1 : -1; return 0`. */
  function Compare(a: Key, b: Key, d: Direction): int
  {
    if Less(a, b) then (if d == Asc then -1 else 1)
    else if Less(b, a) then (if d == Asc then 1 else -1)
    else 0
  }

  /**
   * The comparator is consistent, as `sort` needs: it answers -1, 0 or 1,
   * 0 exactly on equal keys, swapping the arguments negates it, "not after"
   * is transitive, and the descending answer is the ascending one negated.
   */
  lemma {:induction false} CompareConsistent(a: Key, b: Key, c: Key, d: Direction)
    ensures Compare(a, b, d) in {-1, 0, 1}
    ensures Compare(a, b, d) == 0 <==> a == b
    ensures Compare(a, b, d) == -Compare(b, a, d)
    ensures Compare(a, b, Desc) == -Compare(a, b, Asc)
    ensures Compare(a, b, d) <= 0 && Compare(b, c, d) <= 0 ==> Compare(a, c, d) <= 0
  {
    LessOrder(a, b, c);
    LessOrder(b, a, c);
    LessOrder(a, c, b);
    LessOrder(b, c, a);
    LessOrder(c, a, b);
    LessOrder(c, b, a);
    LessOrder(a, b, a);
    LessOrder(b, a, b);
  }

  /** No element is followed by one that sorts before it. */
  ghost predicate Sorted<T>(s: seq<T>, key: T -> Key, d: Direction)
  {
    forall i, j :: 0 <= i < j < |s| ==> Compare(key(s[i]), key(s[j]), d) <= 0
  }

  /** Places `x` after the leading elements that sort before it, so before any it ties with. */
  function Insert<T>(x: T, s: seq<T>, key: T -> Key, d: Direction): (r: seq<T>)
    ensures multiset(r) == multiset(s) + multiset{x} && |r| == |s| + 1
    ensures forall i :: 0 <= i < |r| ==> r[i] == x || r[i] in s
  {
    if s == [] then [x]
    else if Compare(key(x), key(s[0]), d) > 0 then
      assert s == [s[0]] + s[1..];
      [s[0]] + Insert(x, s[1..], key, d)
    else [x] + s
  }

  lemma {:induction false} InsertSorted<T>(x: T, s: seq<T>, key: T -> Key, d: Direction)
    requires Sorted(s, key, d)
    ensures Sorted(Insert(x, s, key, d), key, d)
  {
    if s == [] {
    } else if Compare(key(x), key(s[0]), d) > 0 {
      var rest := Insert(x, s[1..], key, d);
      InsertSorted(x, s[1..], key, d);
      var r := [s[0]] + rest;
      forall i, j | 0 <= i < j < |r| ensures Compare(key(r[i]), key(r[j]), d) <= 0 {
        if i == 0 {
          var y := rest[j - 1];
          if y == x {
            CompareConsistent(key(x), key(s[0]), key(x), d);
          } else {
            var k :| 1 <= k < |s| && s[k] == y;
          }
        }
      }
    } else {
      var r := [x] + s;
      forall i, j | 0 <= i < j < |r| ensures Compare(key(r[i]), key(r[j]), d) <= 0 {
        if i == 0 && j > 1 {
          CompareConsistent(key(x), key(s[0]), key(s[j - 1]), d);
        }
      }
    }
  }

  /** `[...s].sort(comparator)`: a sorted permutation of `s`. */
  function SortBy<T>(s: seq<T>, key: T -> Key, d: Direction): (r: seq<T>)
    ensures multiset(r) == multiset(s) && |r| == |s|
  {
    if s == [] then []
    else
      assert s == [s[0]] + s[1..];
      Insert(s[0], SortBy(s[1..], key, d), key, d)
  }

  /** The result is ordered by the key: non-decreasing ascending, non-increasing descending. */
  lemma {:induction false} SortBySorted<T>(s: seq<T>, key: T -> Key, d: Direction)
    ensures Sorted(SortBy(s, key, d), key, d)
    ensures d == Asc ==> forall i, j :: 0 <= i < j < |s| ==> !Less(key(SortBy(s, key, d)[j]), key(SortBy(s, key, d)[i]))
    ensures d == Desc ==> forall i, j :: 0 <= i < j < |s| ==> !Less(key(SortBy(s, key, d)[i]), key(SortBy(s, key, d)[j]))
  {
    if s != [] {
      SortBySorted(s[1..], key, d);
      InsertSorted(s[0], SortBy(s[1..], key, d), key, d);
    }
    var r := SortBy(s, key, d);
    forall i, j | 0 <= i < j < |s|
      ensures d == Asc ==> !Less(key(r[j]), key(r[i]))
      ensures d == Desc ==> !Less(key(r[i]), key(r[j]))
    {
      LessOrder(key(r[i]), key(r[j]), key(r[i]));
    }
  }

  /** `x` goes after a head that sorts strictly before it, whose key therefore differs. */
  lemma {:induction false} InsertPastHead<T>(x: T, s: seq<T>, key: T -> Key, d: Direction)
    requires s != [] && Compare(key(x), key(s[0]), d) > 0
    ensures Insert(x, s, key, d) == [s[0]] + Insert(x, s[1..], key, d)
    ensures key(x) != key(s[0])
  {
    CompareConsistent(key(x), key(s[0]), key(s[0]), d);
  }

  /**
   * The step of `InsertStable` where `x` goes after the head of `s`: when the
   * head and `x` cannot both pass `p`, `p` sees the same elements in the same
   * order as without the head.
   */
  lemma {:induction false} InsertPastHeadStable<T>(x: T, s: seq<T>, key: T -> Key, d: Direction, p: T -> bool)
    requires s != [] && Insert(x, s, key, d) == [s[0]] + Insert(x, s[1..], key, d)
    requires !(p(s[0]) && p(x))
    requires Filter(Insert(x, s[1..], key, d), p) == (if p(x) then [x] else []) + Filter(s[1..], p)
    ensures Filter(Insert(x, s, key, d), p) == (if p(x) then [x] else []) + Filter(s, p)
  {
    assert s == [s[0]] + s[1..];
    FilterPastHead(s[0], x, Insert(x, s[1..], key, d), s[1..], p);
  }

  /**
   * Inserting `x` passes over only elements that sort strictly before it, so
   * for a test `p` that passes only elements sharing the key of `x`, `x` comes
   * first among the elements that pass.
   */
  lemma {:induction false} InsertStable<T>(x: T, s: seq<T>, key: T -> Key, d: Direction, p: T -> bool)
    requires forall y :: p(y) && p(x) ==> key(y) == key(x)
    ensures Filter(Insert(x, s, key, d), p) == (if p(x) then [x] else []) + Filter(s, p)
  {
    if s == [] {
      FilterSingleton(x, p);
    } else if Compare(key(x), key(s[0]), d) > 0 {
      InsertPastHead(x, s, key, d);
      InsertStable(x, s[1..], key, d, p);
      InsertPastHeadStable(x, s, key, d, p);
    } else {
      FilterCons(x, s, p);
    }
  }

  /** A test that passes only elements of one key sees the same list before and after sorting. */
  lemma {:induction false} SortByKeeps<T>(s: seq<T>, key: T -> Key, d: Direction, p: T -> bool)
    requires forall y, z :: p(y) && p(z) ==> key(y) == key(z)
    ensures Filter(SortBy(s, key, d), p) == Filter(s, p)
  {
    if s != [] {
      SortByKeeps(s[1..], key, d, p);
      InsertStable(s[0], SortBy(s[1..], key, d), key, d, p);
    }
  }

  /**
   * The sort is stable: for every key, the elements with that key appear in
   * the result in the order they had in `s`.
   */
  lemma {:induction false} SortByStable<T>(s: seq<T>, key: T -> Key, d: Direction, k: Key)
    ensures Filter(SortBy(s, key, d), (y: T) => key(y) == k) == Filter(s, (y: T) => key(y) == k)
  {
    SortByKeeps(s, key, d, (y: T) => key(y) == k);
  }

  /** When every key ties, nothing moves. */
  lemma {:induction false} EqualKeysKeepOrder<T>(s: seq<T>, key: T -> Key, d: Direction)
    requires forall i, j :: 0 <= i < |s| && 0 <= j < |s| ==> key(s[i]) == key(s[j])
    ensures SortBy(s, key, d) == s
  {
    if s != [] {
      var k := key(s[0]);
      var r := SortBy(s, key, d);
      forall i | 0 <= i < |s| ensures key(s[i]) == k {
        assert key(s[i]) == key(s[0]);
      }
      forall i | 0 <= i < |r| ensures key(r[i]) == k {
        assert r[i] in multiset(s);
      }
      FilterAll(s, (y: T) => key(y) == k);
      FilterAll(r, (y: T) => key(y) == k);
      SortByStable(s, key, d, k);
    }
  }

  /** ASCII lower case of one character. */
  function LowerChar(c: char): (r: char)
    ensures 'A' <= c <= 'Z' ==> 'a' <= r <= 'z'
    ensures !('A' <= c <= 'Z') ==> r == c
  {
    if 'A' <= c <= 'Z' then (c as int + 32) as char else c
  }

  /** `s.toLowerCase()`, for ASCII letters. */
  function Lower(s: string): (r: string)
    ensures |r| == |s|
    ensures forall i :: 0 <= i < |s| ==> r[i] == LowerChar(s[i])
  {
    if s == [] then [] else [LowerChar(s[0])] + Lower(s[1..])
  }

  /** Lower-casing is idempotent: texts that differ only in case get the same key. */
  lemma {:induction false} LowerIdempotent(s: string)
    ensures Lower(Lower(s)) == Lower(s)
  {
    var once := Lower(s);
    assert forall i :: 0 <= i < |s| ==> LowerChar(once[i]) == once[i];
  }
}
