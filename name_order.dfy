/**
 * `sorted(ingredients.items(), key=lambda x: x[0][0])`: the dictionary's items
 * ordered by ingredient name alone. Python compares strings lexicographically
 * by code point, and its sort is stable, so items with the same name keep the
 * order they had in the dictionary.
 */
module NameOrder {
  import opened Aggregation

  /** Python's `a <= b` on strings: code-point lexicographic order, a prefix first. */
  predicate LexLe(a: string, b: string)
    decreases |a|
  {
    if a == [] then true
    else if b == [] then false
    else if a[0] != b[0] then a[0] < b[0]
    else LexLe(a[1..], b[1..])
  }

  lemma {:induction false} LexLeTotal(a: string, b: string)
    ensures LexLe(a, b) || LexLe(b, a)
    decreases |a|
  {
    if a != [] && b != [] && a[0] == b[0] {
      LexLeTotal(a[1..], b[1..]);
    }
  }

  lemma {:induction false} LexLeAntisymmetric(a: string, b: string)
    requires LexLe(a, b) && LexLe(b, a)
    ensures a == b
    decreases |a|
  {
    if a != [] {
      LexLeAntisymmetric(a[1..], b[1..]);
    }
  }

  lemma {:induction false} LexLeTransitive(a: string, b: string, c: string)
    requires LexLe(a, b) && LexLe(b, c)
    ensures LexLe(a, c)
    decreases |a|
  {
    if a != [] && b != [] && c != [] && a[0] == b[0] && b[0] == c[0] {
      LexLeTransitive(a[1..], b[1..], c[1..]);
    }
  }

  function Name(e: Entry): string {
    e.key.0
  }

  predicate SortedByName(s: seq<Entry>) {
    forall i, j :: 0 <= i < j < |s| ==> LexLe(Name(s[i]), Name(s[j]))
  }

  /**
   * Places `e` in front of the first item whose name is not smaller than its
   * own, so that it stays ahead of the items with the same name.
   */
  function InsertByName(e: Entry, s: seq<Entry>): (r: seq<Entry>)
    ensures multiset(r) == multiset(s) + multiset{e}
  {
    if s == [] || LexLe(Name(e), Name(s[0])) then [e] + s
    else
      assert s == [s[0]] + s[1..];
      [s[0]] + InsertByName(e, s[1..])
  }

  /** The items ordered by name; a stable insertion sort. */
  function SortByName(s: seq<Entry>): (r: seq<Entry>)
    ensures multiset(r) == multiset(s)
  {
    if s == [] then []
    else
      assert s == [s[0]] + s[1..];
      InsertByName(s[0], SortByName(s[1..]))
  }

  lemma {:induction false} InsertByNameSorted(e: Entry, s: seq<Entry>)
    requires SortedByName(s)
    ensures SortedByName(InsertByName(e, s))
  {
    var r := InsertByName(e, s);
    if s == [] {
    } else if LexLe(Name(e), Name(s[0])) {
      forall j | 0 < j < |r| ensures LexLe(Name(e), Name(r[j])) {
        if j > 1 {
          LexLeTransitive(Name(e), Name(s[0]), Name(s[j - 1]));
        }
      }
    } else {
      var t := InsertByName(e, s[1..]);
      InsertByNameSorted(e, s[1..]);
      LexLeTotal(Name(e), Name(s[0]));
      forall j | 0 <= j < |t| ensures LexLe(Name(s[0]), Name(t[j])) {
        assert t[j] in multiset(t);
        if t[j] != e {
          assert t[j] in multiset(s[1..]);
          var m :| 0 <= m < |s[1..]| && s[1..][m] == t[j];
          assert s[m + 1] == t[j];
        }
      }
    }
  }

  /** The rendered items are in non-decreasing order of name. */
  lemma {:induction false} SortByNameSorted(s: seq<Entry>)
    ensures SortedByName(SortByName(s))
  {
    if s != [] {
      SortByNameSorted(s[1..]);
      InsertByNameSorted(s[0], SortByName(s[1..]));
    }
  }

  /** The items of `s` whose name is `n`, in their order in `s`. */
  function WithName(s: seq<Entry>, n: string): seq<Entry> {
    if s == [] then []
    else (if Name(s[0]) == n then [s[0]] else []) + WithName(s[1..], n)
  }

  lemma {:induction false} InsertByNameWithName(e: Entry, s: seq<Entry>, n: string)
    ensures WithName(InsertByName(e, s), n) == (if Name(e) == n then [e] else []) + WithName(s, n)
  {
    if s == [] || LexLe(Name(e), Name(s[0])) {
      WithNameCons(e, s, n);
    } else {
      var rest := InsertByName(e, s[1..]);
      WithNameCons(s[0], rest, n);
      InsertByNameWithName(e, s[1..], n);
      WithNameCons(s[0], s[1..], n);
      assert s == [s[0]] + s[1..];
      LexLeTotal(Name(e), Name(s[0]));
      if Name(e) == n {
        assert Name(s[0]) != n;
      }
    }
  }

  lemma WithNameCons(x: Entry, s: seq<Entry>, n: string)
    ensures WithName([x] + s, n) == (if Name(x) == n then [x] else []) + WithName(s, n)
  {
    assert ([x] + s)[1..] == s;
  }

  /**
   * The sort is stable: the items that share a name come out in the order
   * they went in, so the only freedom the key leaves is taken the way Python does.
   */
  lemma {:induction false} SortByNameStable(s: seq<Entry>, n: string)
    ensures WithName(SortByName(s), n) == WithName(s, n)
  {
    if s != [] {
      SortByNameStable(s[1..], n);
      InsertByNameWithName(s[0], SortByName(s[1..]), n);
    }
  }
  lemma LexLeReflexive(a: string)
    ensures LexLe(a, a)
  {
    LexLeTotal(a, a);
  }

  /**
   * Two name-sorted orderings of the same items agree on the name at every
   * position: only items sharing a name can stand in different places.
   */
  lemma {:induction false} SortedSameNames(s: seq<Entry>, t: seq<Entry>)
    requires SortedByName(s) && SortedByName(t) && multiset(s) == multiset(t)
    ensures |s| == |t|
    ensures forall i :: 0 <= i < |s| ==> Name(s[i]) == Name(t[i])
  {
    assert |s| == |multiset(s)| == |multiset(t)| == |t|;
    if s != [] {
      assert s[0] in multiset(t) && t[0] in multiset(s);
      var j :| 0 <= j < |t| && t[j] == s[0];
      var k :| 0 <= k < |s| && s[k] == t[0];
      LexLeReflexive(Name(s[0]));
      LexLeReflexive(Name(t[0]));
      assert LexLe(Name(t[0]), Name(s[0]));
      assert LexLe(Name(s[0]), Name(t[0]));
      LexLeAntisymmetric(Name(s[0]), Name(t[0]));
      var rest := t[..j] + t[j + 1..];
      RemoveMatching(s, t, j);
      SortedWithout(t, j);
      SortedSameNames(s[1..], rest);
      SameNameUpTo(t, j);
      forall i | 0 <= i < |s| ensures Name(s[i]) == Name(t[i]) {
        if i > 0 {
          assert Name(s[i]) == Name(rest[i - 1]) by {
            assert s[1..][i - 1] == s[i];
          }
          if i - 1 < j {
            assert rest[i - 1] == t[i - 1];
          } else {
            assert rest[i - 1] == t[i];
          }
        }
      }
    }
  }

  /** Dropping one item keeps a name-sorted list sorted. */
  lemma SortedWithout(t: seq<Entry>, j: nat)
    requires SortedByName(t) && j < |t|
    ensures SortedByName(t[..j] + t[j + 1..])
  {
    var rest := t[..j] + t[j + 1..];
    forall a, b | 0 <= a < b < |rest| ensures LexLe(Name(rest[a]), Name(rest[b])) {
      var a', b' := if a < j then a else a + 1, if b < j then b else b + 1;
      assert rest[a] == t[a'] && rest[b] == t[b'];
    }
  }

  /** In a name-sorted list whose item `j` has the first item's name, so do all items before it. */
  lemma SameNameUpTo(t: seq<Entry>, j: nat)
    requires SortedByName(t) && j < |t| && Name(t[j]) == Name(t[0])
    ensures forall m :: 0 <= m <= j ==> Name(t[m]) == Name(t[0])
  {
    forall m | 0 <= m <= j ensures Name(t[m]) == Name(t[0]) {
      LexLeReflexive(Name(t[m]));
      assert LexLe(Name(t[0]), Name(t[m]));
      assert LexLe(Name(t[m]), Name(t[j]));
      LexLeAntisymmetric(Name(t[m]), Name(t[0]));
    }
  }
}
