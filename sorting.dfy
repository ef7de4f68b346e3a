/**
 * Python's `sorted(xs, key=f)` for string keys: a stable sort, written here as
 * insertion sort. Elements whose keys compare equal keep their original order.
 */
module Sorting {
  import opened Strings
  import opened Sequences

  ghost predicate SortedBy<T>(s: seq<T>, key: T -> string) {
    forall i, j :: 0 <= i < j < |s| ==> LexLe(key(s[i]), key(s[j]))
  }

  /** Inserts `x` before the first element whose key is not smaller than its own. */
  function Insert<T(==)>(x: T, s: seq<T>, key: T -> string): (r: seq<T>)
    ensures multiset(r) == multiset(s) + multiset{x}
  {
    if s == [] then [x]
    else if LexLe(key(x), key(s[0])) then [x] + s
    else
      assert s == [s[0]] + s[1..];
      [s[0]] + Insert(x, s[1..], key)
  }

  function SortBy<T(==)>(s: seq<T>, key: T -> string): (r: seq<T>)
    ensures multiset(r) == multiset(s)
    ensures SortedBy(r, key)
  {
    if s == [] then []
    else
      var t := SortBy(s[1..], key);
      InsertSorted(s[0], t, key);
      assert s == [s[0]] + s[1..];
      Insert(s[0], t, key)
  }

  lemma {:induction false} InsertSorted<T>(x: T, s: seq<T>, key: T -> string)
    requires SortedBy(s, key)
    ensures SortedBy(Insert(x, s, key), key)
  {
    if s == [] {
    } else if LexLe(key(x), key(s[0])) {
      forall j | 0 <= j < |s| ensures LexLe(key(x), key(s[j])) {
        if j > 0 {
          LexLeTransitive(key(x), key(s[0]), key(s[j]));
        }
      }
    } else {
      LexLeTotal(key(x), key(s[0]));
      var t := Insert(x, s[1..], key);
      SortedTail(s, key);
      InsertSorted(x, s[1..], key);
      forall j | 0 <= j < |t| ensures LexLe(key(s[0]), key(t[j])) {
        assert t[j] in multiset(t);
        assert t[j] == x || t[j] in multiset(s[1..]);
        if t[j] != x {
          var m :| 0 <= m < |s[1..]| && s[1..][m] == t[j];
          assert s[m + 1] == t[j];
        }
      }
      var r := [s[0]] + t;
      forall i, j | 0 <= i < j < |r| ensures LexLe(key(r[i]), key(r[j])) {
        if i > 0 {
          assert r[i] == t[i - 1] && r[j] == t[j - 1];
        } else {
          assert r[j] == t[j - 1];
        }
      }
    }
  }

  lemma SortedTail<T>(s: seq<T>, key: T -> string)
    requires SortedBy(s, key) && s != []
    ensures SortedBy(s[1..], key)
  {
    forall i, j | 0 <= i < j < |s[1..]| ensures LexLe(key(s[1..][i]), key(s[1..][j])) {
      assert s[1..][i] == s[i + 1] && s[1..][j] == s[j + 1];
    }
  }

  /** The test `key(x) == k`. */
  function HasKey<T>(key: T -> string, k: string): T -> bool {
    x => key(x) == k
  }

  /** Inserting `x` puts it in front of every element with the same key. */
  lemma {:induction false} InsertStable<T(!new)>(x: T, s: seq<T>, key: T -> string, k: string)
    ensures Filter(Insert(x, s, key), HasKey(key, k)) == (if key(x) == k then [x] else []) + Filter(s, HasKey(key, k))
  {
    var p := HasKey(key, k);
    if s == [] {
      FilterCons(x, [], p);
      assert [x] + [] == [x];
    } else if LexLe(key(x), key(s[0])) {
      FilterCons(x, s, p);
    } else {
      var t := Insert(x, s[1..], key);
      var fx := if key(x) == k then [x] else [];
      var f0 := if key(s[0]) == k then [s[0]] else [];
      assert Insert(x, s, key) == [s[0]] + t;
      InsertStable(x, s[1..], key, k);
      FilterCons(s[0], t, p);
      FilterCons(s[0], s[1..], p);
      HeadTail(s);
      LexLeReflexive(key(x));
      assert fx == [] || f0 == [];
      ConcatAssoc(f0, fx, Filter(s[1..], p));
      ConcatAssoc(fx, f0, Filter(s[1..], p));
    }
  }

  /** Stability: for every key, the elements with that key appear in their original order. */
  lemma {:induction false} SortStable<T(!new)>(s: seq<T>, key: T -> string, k: string)
    ensures Filter(SortBy(s, key), HasKey(key, k)) == Filter(s, HasKey(key, k))
  {
    if s != [] {
      SortStable(s[1..], key, k);
      InsertStable(s[0], SortBy(s[1..], key), key, k);
      FilterCons(s[0], s[1..], HasKey(key, k));
      HeadTail(s);
    }
  }

  /** Filtering a sorted sequence and inserting commute. */
  lemma {:induction false} InsertFilter<T(!new)>(x: T, s: seq<T>, key: T -> string, p: T -> bool)
    requires SortedBy(s, key)
    ensures Filter(Insert(x, s, key), p) == if p(x) then Insert(x, Filter(s, p), key) else Filter(s, p)
  {
    if s == [] {
      FilterCons(x, [], p);
      assert [x] + [] == [x];
    } else if LexLe(key(x), key(s[0])) {
      FilterCons(x, s, p);
      var f := Filter(s, p);
      if f != [] {
        FilterMembers(s, p, f[0]);
        var m :| 0 <= m < |s| && s[m] == f[0];
        if m > 0 {
          LexLeTransitive(key(x), key(s[0]), key(f[0]));
        }
      }
    } else {
      SortedTail(s, key);
      var rest := Insert(x, s[1..], key);
      var fs := Filter(s[1..], p);
      assert Insert(x, s, key) == [s[0]] + rest;
      InsertFilter(x, s[1..], key, p);
      FilterCons(s[0], rest, p);
      FilterCons(s[0], s[1..], p);
      HeadTail(s);
      var lhs := Filter(Insert(x, s, key), p);
      if p(s[0]) {
        var g := [s[0]] + fs;
        assert Filter(s, p) == g;
        assert lhs == [s[0]] + Filter(rest, p);
        if p(x) {
          assert g[0] == s[0] && g[1..] == fs;
          assert Insert(x, g, key) == [s[0]] + Insert(x, fs, key);
        }
      } else {
        assert Filter(s, p) == fs;
        assert lhs == Filter(rest, p);
      }
    }
  }

  /** Sorting then filtering gives what filtering then sorting gives. */
  lemma {:induction false} SortFilterCommute<T(!new)>(s: seq<T>, key: T -> string, p: T -> bool)
    ensures Filter(SortBy(s, key), p) == SortBy(Filter(s, p), key)
  {
    if s != [] {
      var t := SortBy(s[1..], key);
      var f := Filter(s[1..], p);
      assert SortBy(s, key) == Insert(s[0], t, key);
      SortFilterCommute(s[1..], key, p);
      InsertFilter(s[0], t, key, p);
      FilterCons(s[0], s[1..], p);
      HeadTail(s);
      var lhs := Filter(SortBy(s, key), p);
      if p(s[0]) {
        var g := [s[0]] + f;
        assert Filter(s, p) == g;
        assert lhs == Insert(s[0], Filter(t, p), key);
        assert g[0] == s[0] && g[1..] == f;
        assert SortBy(g, key) == Insert(s[0], SortBy(f, key), key);
      } else {
        assert Filter(s, p) == f;
        assert lhs == Filter(t, p);
      }
    }
  }
}
