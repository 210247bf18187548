/**
 * Summing the ingredient amounts of the recipes in a user's shopping cart
 * (the first half of `DownloadShoppingCartView.get`).
 *
 * The cart is given as data: one sequence of ingredient lines per recipe, in
 * the order the cart is traversed. The running totals are a dictionary keyed
 * by the pair (ingredient name, measurement unit); like a Python `dict` it
 * also remembers the order in which its keys were first inserted, which is
 * the order `items()` later returns them in.
 */
module Aggregation {

  /** One ingredient line of a recipe: the ingredient's name and unit, and the amount. */
  datatype Line = Line(name: string, unit: string, amount: int)

  /** The aggregation key: the pair (name, unit), not the name alone. */
  type Key = (string, string)

  /** One item of the dictionary: a key and its summed amount. */
  datatype Entry = Entry(key: Key, total: int)

  function KeyOf(l: Line): Key {
    (l.name, l.unit)
  }

  /** The lines of all cart recipes, recipe after recipe. */
  function Flatten(cart: seq<seq<Line>>): seq<Line> {
    if cart == [] then [] else Flatten(cart[..|cart| - 1]) + cart[|cart| - 1]
  }

  /** The sum of the amounts of those lines whose key is `k`. */
  function SumOf(lines: seq<Line>, k: Key): int {
    if lines == [] then 0
    else (if KeyOf(lines[0]) == k then lines[0].amount else 0) + SumOf(lines[1..], k)
  }

  function KeysOf(lines: seq<Line>): set<Key> {
    set l | l in lines :: KeyOf(l)
  }

  predicate Distinct<T(==)>(s: seq<T>) {
    forall i, j :: 0 <= i < j < |s| ==> s[i] != s[j]
  }

  /** The keys of `lines` in the order of their first occurrence. */
  function FirstSeen(lines: seq<Line>): seq<Key> {
    if lines == [] then []
    else
      var p := FirstSeen(lines[..|lines| - 1]);
      var k := KeyOf(lines[|lines| - 1]);
      if k in p then p else p + [k]
  }

  /** The insertion order holds every key of the lines, each exactly once. */
  lemma {:induction false} FirstSeenSpec(lines: seq<Line>)
    ensures Distinct(FirstSeen(lines))
    ensures forall k :: k in FirstSeen(lines) <==> k in KeysOf(lines)
  {
    if lines != [] {
      var init, line := lines[..|lines| - 1], lines[|lines| - 1];
      assert lines == init + [line];
      FirstSeenSpec(init);
      AppendKeys(init, line);
    }
  }

  /**
   * `ingredients.items()`: one item per key of the dictionary, in insertion
   * order, each carrying the total stored for its key.
   */
  function ItemsOf(totals: map<Key, int>, order: seq<Key>): (items: seq<Entry>)
    requires Distinct(order) && forall k :: k in order <==> k in totals
    ensures |items| == |order|
    ensures forall i :: 0 <= i < |order| ==> items[i].key == order[i] && items[i].total == totals[order[i]]
    ensures forall e: Entry :: e in items <==> e.key in totals && e.total == totals[e.key]
    ensures Distinct(KeysOfItems(items))
  {
    var items := seq(|order|, i requires 0 <= i < |order| => Entry(order[i], totals[order[i]]));
    assert forall e: Entry :: e.key in totals && e.total == totals[e.key] ==> e in items by {
      forall e: Entry | e.key in totals && e.total == totals[e.key] ensures e in items {
        var i :| 0 <= i < |order| && order[i] == e.key;
        assert items[i] == e;
      }
    }
    items
  }

  function KeysOfItems(items: seq<Entry>): seq<Key> {
    seq(|items|, i requires 0 <= i < |items| => items[i].key)
  }

  /** What the dictionary's items are for a whole cart: every key once, with its sum. */
  function CartItems(cart: seq<seq<Line>>): seq<Entry> {
    var lines := Flatten(cart);
    var order := FirstSeen(lines);
    seq(|order|, i requires 0 <= i < |order| => Entry(order[i], SumOf(lines, order[i])))
  }

  /**
   * The dictionary the view builds from `lines`, one line at a time:
   * `ingredients[key] = ingredients.get(key, 0) + amount`.
   */
  ghost function Summed(lines: seq<Line>): map<Key, int> {
    if lines == [] then map[]
    else
      var m := Summed(lines[..|lines| - 1]);
      var line := lines[|lines| - 1];
      m[KeyOf(line) := (if KeyOf(line) in m then m[KeyOf(line)] else 0) + line.amount]
  }

  /**
   * The nested loops of the view: for every recipe of the cart and every line
   * of that recipe, the line's amount is added to the total kept for its key,
   * an unseen key starting from 0.
   */
  method Aggregate(cart: seq<seq<Line>>) returns (totals: map<Key, int>, order: seq<Key>)
    ensures totals.Keys == KeysOf(Flatten(cart))
    ensures forall k :: k in totals ==> totals[k] == SumOf(Flatten(cart), k)
    ensures order == FirstSeen(Flatten(cart))
  {
    totals, order := map[], [];
    ghost var done: seq<Line> := [];
    for i := 0 to |cart|
      invariant done == Flatten(cart[..i])
      invariant totals == Summed(done) && order == FirstSeen(done)
    {
      var recipe := cart[i];
      assert cart[..i + 1][..i] == cart[..i];
      ghost var before := done;
      assert before + recipe[..0] == before;
      for j := 0 to |recipe|
        invariant done == before + recipe[..j]
        invariant totals == Summed(done) && order == FirstSeen(done)
      {
        var line := recipe[j];
        var key := KeyOf(line);
        AddLineStep(done, line);
        AppendLine(before, recipe, j);
        // `ingredients.get(key, 0)`; a new key also joins the insertion order.
        var current := if key in totals then totals[key] else 0;
        order := if key in totals then order else order + [key];
        totals := totals[key := current + line.amount];
        done := done + [line];
      }
      assert recipe[..|recipe|] == recipe;
    }
    assert cart[..|cart|] == cart;
    SummedSpec(done);
  }

  lemma AppendLine(before: seq<Line>, recipe: seq<Line>, j: nat)
    requires j < |recipe|
    ensures before + recipe[..j] + [recipe[j]] == before + recipe[..j + 1]
  {
    assert recipe[..j + 1] == recipe[..j] + [recipe[j]];
  }

  /**
   * One step of the inner loop, for the dictionary and its insertion order:
   * the line's key gets its old total (0 when unseen) plus the line's amount,
   * and an unseen key is appended to the insertion order.
   */
  lemma AddLineStep(lines: seq<Line>, line: Line)
    ensures var m, key := Summed(lines), KeyOf(line);
      && Summed(lines + [line]) == m[key := (if key in m then m[key] else 0) + line.amount]
      && FirstSeen(lines + [line]) == if key in m then FirstSeen(lines) else FirstSeen(lines) + [key]
  {
    AppendSummed(lines, line);
    AppendFirstSeen(lines, line);
    assert KeyOf(line) in Summed(lines) <==> KeyOf(line) in FirstSeen(lines) by {
      SummedSpec(lines);
      FirstSeenSpec(lines);
    }
  }

  /** The dictionary built from `lines` holds each key of `lines` with its sum. */
  lemma {:induction false} SummedSpec(lines: seq<Line>)
    ensures Summed(lines).Keys == KeysOf(lines)
    ensures forall k :: k in Summed(lines) ==> Summed(lines)[k] == SumOf(lines, k)
  {
    if lines != [] {
      var init, line := lines[..|lines| - 1], lines[|lines| - 1];
      assert lines == init + [line];
      SummedSpec(init);
      AppendKeys(init, line);
      AddLineTotals(Summed(init), init, line);
    }
  }

  /** The totals after the step are the sums over the lines with the new line added. */
  lemma AddLineTotals(totals: map<Key, int>, lines: seq<Line>, line: Line)
    requires totals.Keys == KeysOf(lines)
    requires forall k :: k in totals ==> totals[k] == SumOf(lines, k)
    ensures var key := KeyOf(line);
      var totals' := totals[key := (if key in totals then totals[key] else 0) + line.amount];
      forall k :: k in totals' ==> totals'[k] == SumOf(lines + [line], k)
  {
    var key := KeyOf(line);
    var totals' := totals[key := (if key in totals then totals[key] else 0) + line.amount];
    forall k | k in totals'
      ensures totals'[k] == SumOf(lines + [line], k)
    {
      AppendSum(lines, line, k);
      if k == key && key !in totals {
        SumOfAbsentKey(lines, key);
      }
    }
  }

  lemma AppendKeys(lines: seq<Line>, line: Line)
    ensures KeysOf(lines + [line]) == KeysOf(lines) + {KeyOf(line)}
  {
    var next := lines + [line];
    assert forall l :: l in next <==> l in lines || l == line;
  }

  lemma AppendSum(lines: seq<Line>, line: Line, k: Key)
    ensures SumOf(lines + [line], k) == SumOf(lines, k) + (if KeyOf(line) == k then line.amount else 0)
  {
    SumOfAppend(lines, [line], k);
  }

  lemma AppendSummed(lines: seq<Line>, line: Line)
    ensures var m, key := Summed(lines), KeyOf(line);
      Summed(lines + [line]) == m[key := (if key in m then m[key] else 0) + line.amount]
  {
    var next := lines + [line];
    assert next[..|next| - 1] == lines;
  }

  lemma AppendFirstSeen(lines: seq<Line>, line: Line)
    ensures FirstSeen(lines + [line]) ==
      if KeyOf(line) in FirstSeen(lines) then FirstSeen(lines) else FirstSeen(lines) + [KeyOf(line)]
  {
    var next := lines + [line];
    assert next[..|next| - 1] == lines;
  }

  lemma {:induction false} SumOfAppend(a: seq<Line>, b: seq<Line>, k: Key)
    ensures SumOf(a + b, k) == SumOf(a, k) + SumOf(b, k)
  {
    if a == [] {
      assert a + b == b;
    } else {
      assert (a + b)[1..] == a[1..] + b;
      SumOfAppend(a[1..], b, k);
    }
  }

  /** A key that no line carries sums to 0: nothing is invented. */
  lemma {:induction false} SumOfAbsentKey(lines: seq<Line>, k: Key)
    requires k !in KeysOf(lines)
    ensures SumOf(lines, k) == 0
  {
    if lines != [] {
      assert KeysOf(lines[1..]) <= KeysOf(lines);
      SumOfAbsentKey(lines[1..], k);
    }
  }

  /**
   * With every amount at least 1 (the validator on the amount field), a key
   * that occurs sums to at least 1 and one that does not sums to 0.
   */
  lemma {:induction false} SumOfPositive(lines: seq<Line>, k: Key)
    requires forall i :: 0 <= i < |lines| ==> lines[i].amount >= 1
    ensures k in KeysOf(lines) ==> SumOf(lines, k) >= 1
    ensures k !in KeysOf(lines) ==> SumOf(lines, k) == 0
  {
    if lines != [] {
      assert KeysOf(lines) == {KeyOf(lines[0])} + KeysOf(lines[1..]) by {
        assert lines == [lines[0]] + lines[1..];
      }
      SumOfPositive(lines[1..], k);
    }
  }

  /** The sums do not depend on the order in which the lines are visited. */
  lemma {:induction false} SumOfPermutation(a: seq<Line>, b: seq<Line>, k: Key)
    requires multiset(a) == multiset(b)
    ensures SumOf(a, k) == SumOf(b, k)
  {
    if a == [] {
      assert |b| == |multiset(b)| == 0;
    } else {
      assert a[0] in multiset(b);
      var i :| 0 <= i < |b| && b[i] == a[0];
      RemoveMatching(a, b, i);
      SumOfPermutation(a[1..], b[..i] + b[i + 1..], k);
      SumOfRemove(b, i, k);
    }
  }

  /** Taking out one line takes out exactly its own contribution. */
  lemma SumOfRemove(b: seq<Line>, i: nat, k: Key)
    requires i < |b|
    ensures SumOf(b, k) == SumOf(b[..i] + b[i + 1..], k) + SumOf([b[i]], k)
  {
    assert b[i..] == [b[i]] + b[i + 1..];
    assert b == b[..i] + b[i..];
    SumOfAppend(b[..i], b[i..], k);
    SumOfAppend([b[i]], b[i + 1..], k);
    SumOfAppend(b[..i], b[i + 1..], k);
  }

  /**
   * When `b` is a permutation of `a` and holds `a`'s first element at `i`,
   * the rest of `a` is a permutation of `b` without position `i`.
   */
  lemma RemoveMatching<T>(a: seq<T>, b: seq<T>, i: nat)
    requires multiset(a) == multiset(b) && a != [] && i < |b| && b[i] == a[0]
    ensures multiset(a[1..]) == multiset(b[..i] + b[i + 1..])
  {
    var x, rest, others := a[0], a[1..], b[..i] + b[i + 1..];
    assert a == [x] + rest;
    assert b[..i + 1] == b[..i] + [x];
    assert b == b[..i + 1] + b[i + 1..];
    calc {
      multiset(rest) + multiset{x};
      multiset(a);
      multiset(b);
      multiset(b[..i + 1]) + multiset(b[i + 1..]);
      multiset(b[..i]) + multiset{x} + multiset(b[i + 1..]);
      multiset(b[..i]) + multiset(b[i + 1..]) + multiset{x};
      multiset(others) + multiset{x};
    }
    MultisetCancel(multiset(rest), multiset(others), x);
  }

  lemma MultisetCancel<T>(m: multiset<T>, n: multiset<T>, x: T)
    requires m + multiset{x} == n + multiset{x}
    ensures m == n
  {
    forall y ensures m[y] == n[y] {
      assert (m + multiset{x})[y] == (n + multiset{x})[y];
    }
  }

  /** The lines visited are exactly the lines of the cart's recipes. */
  lemma {:induction false} FlattenMember(cart: seq<seq<Line>>, ln: Line)
    ensures ln in Flatten(cart) <==> exists r :: r in cart && ln in r
  {
    if cart != [] {
      var init, last := cart[..|cart| - 1], cart[|cart| - 1];
      FlattenMember(init, ln);
      assert cart == init + [last];
      if ln in Flatten(init) {
        var r :| r in init && ln in r;
        assert r in cart;
      }
      if exists r :: r in cart && ln in r {
        var r :| r in cart && ln in r;
        if r != last {
          assert r in init;
        }
      }
    }
  }

  lemma {:induction false} FlattenAppend(a: seq<seq<Line>>, b: seq<seq<Line>>)
    ensures Flatten(a + b) == Flatten(a) + Flatten(b)
  {
    if b == [] {
      assert a + b == a;
    } else {
      var init := b[..|b| - 1];
      assert (a + b)[..|a + b| - 1] == a + init;
      FlattenAppend(a, init);
    }
  }

  /** Visiting the cart's recipes in another order visits the same lines. */
  lemma {:induction false} FlattenPermutation(c: seq<seq<Line>>, d: seq<seq<Line>>)
    requires multiset(c) == multiset(d)
    ensures multiset(Flatten(c)) == multiset(Flatten(d))
  {
    if c == [] {
      assert |d| == |multiset(d)| == 0;
    } else {
      assert c[0] in multiset(d);
      var i :| 0 <= i < |d| && d[i] == c[0];
      RemoveMatching(c, d, i);
      FlattenPermutation(c[1..], d[..i] + d[i + 1..]);
      FlattenRemove(d, i);
      assert c == [c[0]] + c[1..];
      FlattenAppend([c[0]], c[1..]);
      FlattenSingle(c[0]);
    }
  }

  lemma FlattenSingle(r: seq<Line>)
    ensures Flatten([r]) == r
  {
    assert [r][..0] == [];
  }

  /** Taking recipe `i` out of the cart takes exactly its lines out of the flattened lines. */
  lemma FlattenRemove(d: seq<seq<Line>>, i: nat)
    requires i < |d|
    ensures multiset(Flatten(d)) == multiset(Flatten(d[..i] + d[i + 1..])) + multiset(d[i])
  {
    var pre, r, post := d[..i], d[i], d[i + 1..];
    assert d[..i + 1] == pre + [r];
    assert d == d[..i + 1] + post;
    assert (pre + [r])[..|pre|] == pre;
    FlattenAppend(pre + [r], post);
    FlattenAppend(pre, post);
    calc {
      multiset(Flatten(d));
      multiset(Flatten(pre + [r]) + Flatten(post));
      multiset(Flatten(pre) + r) + multiset(Flatten(post));
      multiset(Flatten(pre)) + multiset(r) + multiset(Flatten(post));
      multiset(Flatten(pre)) + multiset(Flatten(post)) + multiset(r);
      multiset(Flatten(pre) + Flatten(post)) + multiset(r);
      multiset(Flatten(pre + post)) + multiset(r);
    }
  }

  /**
   * Traversal order does not matter: two orders of the same recipes give the
   * same keys and the same total for every key.
   */
  lemma TotalsIndependentOfOrder(c: seq<seq<Line>>, d: seq<seq<Line>>, k: Key)
    requires multiset(c) == multiset(d)
    ensures KeysOf(Flatten(c)) == KeysOf(Flatten(d))
    ensures SumOf(Flatten(c), k) == SumOf(Flatten(d), k)
  {
    FlattenPermutation(c, d);
    var a, b := Flatten(c), Flatten(d);
    forall l | l in a ensures l in b {
      assert l in multiset(a);
    }
    forall l | l in b ensures l in a {
      assert l in multiset(b);
    }
    SumOfPermutation(a, b, k);
  }

  /**
   * Lines with the same name but another unit do not touch a key's total:
   * the key is the pair, so (flour, g) and (flour, kg) are summed apart.
   */
  lemma OtherUnitKeptApart(lines: seq<Line>, name: string, unit: string, other: Line)
    requires other.name == name && other.unit != unit
    ensures SumOf(lines + [other], (name, unit)) == SumOf(lines, (name, unit))
    ensures (name, other.unit) in KeysOf(lines + [other])
  {
    SumOfAppend(lines, [other], (name, unit));
    assert other in lines + [other];
  }

  /** The items of a cart: each key of its lines exactly once, paired with that key's sum. */
  lemma CartItemsSpec(cart: seq<seq<Line>>)
    ensures Distinct(KeysOfItems(CartItems(cart)))
    ensures forall e: Entry :: e in CartItems(cart) <==>
              e.key in KeysOf(Flatten(cart)) && e.total == SumOf(Flatten(cart), e.key)
  {
    var lines := Flatten(cart);
    var order := FirstSeen(lines);
    var items := CartItems(cart);
    FirstSeenSpec(lines);
    forall e: Entry | e.key in KeysOf(lines) && e.total == SumOf(lines, e.key)
      ensures e in items
    {
      var i :| 0 <= i < |order| && order[i] == e.key;
      assert items[i] == e;
    }
  }

  /** An empty cart gives an empty dictionary. */
  lemma EmptyCart()
    ensures KeysOf(Flatten([])) == {} && CartItems([]) == []
  {
  }

  /** There are as many items as distinct keys among the cart's lines. */
  lemma {:induction false} CartItemsCount(cart: seq<seq<Line>>)
    ensures |CartItems(cart)| == |KeysOf(Flatten(cart))|
  {
    var order := FirstSeen(Flatten(cart));
    FirstSeenSpec(Flatten(cart));
    DistinctCard(order);
    assert (set k | k in order) == KeysOf(Flatten(cart));
  }

  lemma {:induction false} DistinctCard<T>(s: seq<T>)
    requires Distinct(s)
    ensures |set x | x in s| == |s|
  {
    if s != [] {
      var init := s[..|s| - 1];
      DistinctCard(init);
      assert (set x | x in s) == (set x | x in init) + {s[|s| - 1]} by {
        assert s == init + [s[|s| - 1]];
      }
    }
  }
}
