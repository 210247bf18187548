/**
 * `DownloadShoppingCartView.get`: the text file of a user's shopping list.
 * The cart's ingredient amounts are summed per (name, unit), the items are
 * ordered by name, and the text is a header naming the user, an empty line,
 * and one line `name (unit) — amount` per item.
 */
module ShoppingReport {
  import opened Aggregation
  import opened NameOrder
  import Decimal
  import Membership

  const HeaderPrefix: string := "Список покупок для "
  const Dash: string := " — "

  /** The header line, naming the user, followed by an empty line. */
  function Header(username: string): string {
    HeaderPrefix + username + "\n\n"
  }

  /** The line written for one item: `f"{name} ({unit}) — {amount}\n"`. */
  function EntryLine(e: Entry): string {
    e.key.0 + " (" + e.key.1 + ")" + Dash + Decimal.IntToDecimal(e.total) + "\n"
  }

  /** The lines of `entries`, in order. */
  function Body(entries: seq<Entry>): string {
    if entries == [] then "" else Body(entries[..|entries| - 1]) + EntryLine(entries[|entries| - 1])
  }

  /** The whole file for `username` whose cart holds the recipes `cart`. */
  function ShoppingList(username: string, cart: seq<seq<Line>>): string {
    Header(username) + Body(SortByName(CartItems(cart)))
  }

  /** The loop that appends one line per item to the header. */
  method Render(username: string, entries: seq<Entry>) returns (text: string)
    ensures text == Header(username) + Body(entries)
  {
    text := HeaderPrefix + username + "\n\n";
    for i := 0 to |entries|
      invariant text == Header(username) + Body(entries[..i])
    {
      assert entries[..i + 1][..i] == entries[..i];
      ConcatAssoc(Header(username), Body(entries[..i]), EntryLine(entries[i]));
      text := text + EntryLine(entries[i]);
    }
    assert entries[..|entries|] == entries;
  }

  /** The view: aggregate, take the items, sort them by name, render. */
  method Download(username: string, cart: seq<seq<Line>>) returns (text: string)
    ensures text == ShoppingList(username, cart)
  {
    var totals, order := Aggregate(cart);
    FirstSeenSpec(Flatten(cart));
    assert forall k :: k in order <==> k in totals;
    var items := ItemsOf(totals, order);
    assert items == CartItems(cart);
    var sorted := SortByName(items);
    text := Render(username, sorted);
  }

  /** An empty cart gives the header and the empty line, and nothing else. */
  lemma EmptyCartReport(username: string)
    ensures ShoppingList(username, []) == "Список покупок для " + username + "\n\n"
  {
    EmptyCart();
  }

  /**
   * The items of the file: each key of the cart's lines exactly once, with
   * the sum of its amounts, ordered by name.
   */
  lemma ReportItems(cart: seq<seq<Line>>)
    ensures SortedByName(SortByName(CartItems(cart)))
    ensures |SortByName(CartItems(cart))| == |KeysOf(Flatten(cart))|
    ensures forall e: Entry :: e in SortByName(CartItems(cart)) <==>
              e.key in KeysOf(Flatten(cart)) && e.total == SumOf(Flatten(cart), e.key)
  {
    var items := CartItems(cart);
    var sorted := SortByName(items);
    SortByNameSorted(items);
    CartItemsSpec(cart);
    CartItemsCount(cart);
    assert |sorted| == |multiset(sorted)| == |multiset(items)| == |items|;
    forall e: Entry ensures e in sorted <==> e in items {
      assert e in sorted <==> e in multiset(sorted);
      assert e in items <==> e in multiset(items);
    }
  }

  /** With every amount at least 1, every amount in the file is at least 1. */
  lemma ReportAmountsPositive(cart: seq<seq<Line>>)
    requires forall r, l :: r in cart && l in r ==> l.amount >= 1
    ensures forall e :: e in SortByName(CartItems(cart)) ==> e.total >= 1
  {
    var lines := Flatten(cart);
    FlattenAmounts(cart);
    ReportItems(cart);
    forall e | e in SortByName(CartItems(cart)) ensures e.total >= 1 {
      SumOfPositive(lines, e.key);
    }
  }

  lemma {:induction false} FlattenAmounts(cart: seq<seq<Line>>)
    requires forall r, l :: r in cart && l in r ==> l.amount >= 1
    ensures forall i :: 0 <= i < |Flatten(cart)| ==> Flatten(cart)[i].amount >= 1
  {
    if cart != [] {
      FlattenAmounts(cart[..|cart| - 1]);
      assert cart[|cart| - 1] in cart;
    }
  }

  /**
   * The order in which the cart's recipes are visited changes at most the
   * order of items that share a name: the file holds the same items.
   */
  lemma ReportIndependentOfCartOrder(c: seq<seq<Line>>, d: seq<seq<Line>>)
    requires multiset(c) == multiset(d)
    ensures |SortByName(CartItems(c))| == |SortByName(CartItems(d))|
    ensures forall e: Entry :: e in SortByName(CartItems(c)) <==> e in SortByName(CartItems(d))
  {
    ReportItems(c);
    ReportItems(d);
    forall k: Key ensures SumOf(Flatten(c), k) == SumOf(Flatten(d), k) {
      TotalsIndependentOfOrder(c, d, k);
    }
    TotalsIndependentOfOrder(c, d, ("", ""));
  }

  /**
   * Which items may trade places when the recipes are visited in another
   * order: at every position of the file both orders put an item with the
   * same name, so only items sharing a name (the same name in two units)
   * can come out the other way round.
   */
  lemma ReportNamesIndependentOfCartOrder(c: seq<seq<Line>>, d: seq<seq<Line>>)
    requires multiset(c) == multiset(d)
    ensures |SortByName(CartItems(c))| == |SortByName(CartItems(d))|
    ensures forall i :: 0 <= i < |SortByName(CartItems(c))| ==>
              Name(SortByName(CartItems(c))[i]) == Name(SortByName(CartItems(d))[i])
  {
    var ic, id := CartItems(c), CartItems(d);
    CartItemsSpec(c);
    CartItemsSpec(d);
    forall k: Key ensures SumOf(Flatten(c), k) == SumOf(Flatten(d), k) {
      TotalsIndependentOfOrder(c, d, k);
    }
    TotalsIndependentOfOrder(c, d, ("", ""));
    DistinctKeysDistinctItems(ic);
    DistinctKeysDistinctItems(id);
    DistinctSameElements(ic, id);
    SortByNameSorted(ic);
    SortByNameSorted(id);
    SortedSameNames(SortByName(ic), SortByName(id));
  }

  lemma DistinctKeysDistinctItems(items: seq<Entry>)
    requires Distinct(KeysOfItems(items))
    ensures Distinct(items)
  {
    forall i, j | 0 <= i < j < |items| ensures items[i] != items[j] {
      assert KeysOfItems(items)[i] != KeysOfItems(items)[j];
    }
  }

  /**
   * The ingredient lines of the recipes a cart query lists: `ingredients(r)`
   * stands for `recipe.ingredient_amounts.all()` with each ingredient resolved.
   */
  function CartRecipes(ingredients: Membership.RecipeId -> seq<Line>, listing: seq<Membership.RecipeId>): seq<seq<Line>> {
    seq(|listing|, i requires 0 <= i < |listing| => ingredients(listing[i]))
  }

  /** The lines the nested loop visits are exactly the lines of the listed recipes. */
  lemma CartRecipesLines(ingredients: Membership.RecipeId -> seq<Line>, listing: seq<Membership.RecipeId>)
    ensures forall ln :: ln in Flatten(CartRecipes(ingredients, listing)) <==>
              exists r :: r in listing && ln in ingredients(r)
  {
    var cart := CartRecipes(ingredients, listing);
    forall ln ensures ln in Flatten(cart) <==> exists r :: r in listing && ln in ingredients(r) {
      FlattenMember(cart, ln);
      if ln in Flatten(cart) {
        var rs :| rs in cart && ln in rs;
        var i :| 0 <= i < |cart| && cart[i] == rs;
        assert listing[i] in listing;
      }
      if exists r :: r in listing && ln in ingredients(r) {
        var r :| r in listing && ln in ingredients(r);
        var i :| 0 <= i < |listing| && listing[i] == r;
        assert cart[i] in cart;
      }
    }
  }

  lemma CartRecipesAppend(ingredients: Membership.RecipeId -> seq<Line>, a: seq<Membership.RecipeId>, b: seq<Membership.RecipeId>)
    ensures CartRecipes(ingredients, a + b) == CartRecipes(ingredients, a) + CartRecipes(ingredients, b)
  {
  }

  lemma {:induction false} CartRecipesPermutation(ingredients: Membership.RecipeId -> seq<Line>,
                                                  a: seq<Membership.RecipeId>, b: seq<Membership.RecipeId>)
    requires multiset(a) == multiset(b)
    ensures multiset(CartRecipes(ingredients, a)) == multiset(CartRecipes(ingredients, b))
  {
    if a == [] {
      assert |b| == |multiset(b)| == 0;
    } else {
      assert a[0] in multiset(b);
      var i :| 0 <= i < |b| && b[i] == a[0];
      RemoveMatching(a, b, i);
      CartRecipesPermutation(ingredients, a[1..], b[..i] + b[i + 1..]);
      assert a == [a[0]] + a[1..];
      assert b == b[..i] + [b[i]] + b[i + 1..];
      CartRecipesAppend(ingredients, [a[0]], a[1..]);
      CartRecipesAppend(ingredients, b[..i] + [b[i]], b[i + 1..]);
      CartRecipesAppend(ingredients, b[..i], [b[i]]);
      CartRecipesAppend(ingredients, b[..i], b[i + 1..]);
    }
  }

  lemma {:induction false} DistinctMultiplicity<T>(s: seq<T>, x: T)
    requires Distinct(s)
    ensures multiset(s)[x] == if x in s then 1 else 0
  {
    if s != [] {
      var init := s[..|s| - 1];
      assert s == init + [s[|s| - 1]];
      DistinctMultiplicity(init, x);
    }
  }

  lemma DistinctSameElements<T>(a: seq<T>, b: seq<T>)
    requires Distinct(a) && Distinct(b)
    requires forall x :: x in a <==> x in b
    ensures multiset(a) == multiset(b)
  {
    forall x ensures multiset(a)[x] == multiset(b)[x] {
      DistinctMultiplicity(a, x);
      DistinctMultiplicity(b, x);
    }
  }

  /**
   * The cart is a set of (user, recipe) rows, and the query lists each of its
   * recipes once in an order the database picks. Whatever that order, the
   * file holds the same items.
   */
  lemma ListingOrderIrrelevant(ingredients: Membership.RecipeId -> seq<Line>, cartSet: set<Membership.RecipeId>,
                               a: seq<Membership.RecipeId>, b: seq<Membership.RecipeId>)
    requires Distinct(a) && (forall r :: r in a <==> r in cartSet)
    requires Distinct(b) && (forall r :: r in b <==> r in cartSet)
    ensures |SortByName(CartItems(CartRecipes(ingredients, a)))| == |SortByName(CartItems(CartRecipes(ingredients, b)))|
    ensures forall e: Entry :: e in SortByName(CartItems(CartRecipes(ingredients, a))) <==>
                               e in SortByName(CartItems(CartRecipes(ingredients, b)))
  {
    assert forall r :: r in a <==> r in b;
    DistinctSameElements(a, b);
    CartRecipesPermutation(ingredients, a, b);
    ReportIndependentOfCartOrder(CartRecipes(ingredients, a), CartRecipes(ingredients, b));
  }

  /** The number of occurrences of `c` in `s`. */
  function Occurrences(s: string, c: char): nat {
    if s == [] then 0 else (if s[0] == c then 1 else 0) + Occurrences(s[1..], c)
  }

  lemma {:induction false} OccurrencesAppend(a: string, b: string, c: char)
    ensures Occurrences(a + b, c) == Occurrences(a, c) + Occurrences(b, c)
  {
    if a == [] {
      assert a + b == b;
    } else {
      assert (a + b)[1..] == a[1..] + b;
      OccurrencesAppend(a[1..], b, c);
    }
  }

  lemma {:induction false} OccurrencesAbsent(s: string, c: char)
    requires c !in s
    ensures Occurrences(s, c) == 0
  {
    if s != [] {
      OccurrencesAbsent(s[1..], c);
    }
  }

  predicate OneLine(s: string) {
    '\n' !in s
  }

  lemma EntryLineIsOneLine(e: Entry)
    requires OneLine(e.key.0) && OneLine(e.key.1)
    ensures Occurrences(EntryLine(e), '\n') == 1
    ensures EntryLine(e)[|EntryLine(e)| - 1] == '\n'
  {
    var amount := Decimal.IntToDecimal(e.total);
    assert OneLine(amount) by {
      forall j | 0 <= j < |amount| ensures amount[j] != '\n' {
      }
    }
    var prefix := e.key.0 + " (" + e.key.1 + ")" + Dash + amount;
    assert OneLine(prefix);
    assert EntryLine(e) == prefix + "\n";
    OccurrencesAbsent(prefix, '\n');
    OccurrencesAppend(prefix, "\n", '\n');
  }

  /** The body has exactly one line per item, when names and units are single lines. */
  lemma {:induction false} BodyLineCount(entries: seq<Entry>)
    requires forall e :: e in entries ==> OneLine(e.key.0) && OneLine(e.key.1)
    ensures Occurrences(Body(entries), '\n') == |entries|
  {
    if entries != [] {
      var init := entries[..|entries| - 1];
      var last := entries[|entries| - 1];
      BodyLineCount(init);
      EntryLineIsOneLine(last);
      OccurrencesAppend(Body(init), EntryLine(last), '\n');
    }
  }

  /**
   * The file has the two lines of the header and one line per distinct
   * (name, unit) key of the cart.
   */
  lemma ReportLineCount(username: string, cart: seq<seq<Line>>)
    requires OneLine(username)
    requires forall r, l :: r in cart && l in r ==> OneLine(l.name) && OneLine(l.unit)
    ensures Occurrences(ShoppingList(username, cart), '\n') == 2 + |KeysOf(Flatten(cart))|
  {
    var sorted := SortByName(CartItems(cart));
    ReportItems(cart);
    FlattenOneLine(cart);
    forall e | e in sorted ensures OneLine(e.key.0) && OneLine(e.key.1) {
      var l :| l in Flatten(cart) && KeyOf(l) == e.key;
    }
    BodyLineCount(sorted);
    HeaderLineCount(username);
    OccurrencesAppend(Header(username), Body(sorted), '\n');
  }

  /** The header is two lines: the one naming the user, and an empty one. */
  lemma HeaderLineCount(username: string)
    requires OneLine(username)
    ensures Occurrences(Header(username), '\n') == 2
  {
    var prefix := HeaderPrefix + username;
    assert OneLine(prefix) by {
      assert forall j :: 0 <= j < |HeaderPrefix| ==> HeaderPrefix[j] != '\n';
    }
    assert Header(username) == prefix + "\n\n";
    OccurrencesAbsent(prefix, '\n');
    OccurrencesAppend(prefix, "\n\n", '\n');
  }

  lemma {:induction false} FlattenOneLine(cart: seq<seq<Line>>)
    requires forall r, l :: r in cart && l in r ==> OneLine(l.name) && OneLine(l.unit)
    ensures forall l :: l in Flatten(cart) ==> OneLine(l.name) && OneLine(l.unit)
  {
    if cart != [] {
      FlattenOneLine(cart[..|cart| - 1]);
      assert cart[|cart| - 1] in cart;
    }
  }

  lemma ConcatAssoc(a: string, b: string, c: string)
    ensures (a + b) + c == a + (b + c)
  {
  }

  /** The body of a list is the body of any prefix followed by the body of the rest. */
  lemma {:induction false} BodyAt(s: seq<Entry>, n: nat)
    requires n <= |s|
    ensures Body(s) == Body(s[..n]) + Body(s[n..])
    decreases |s|
  {
    if n == |s| {
      assert s[..n] == s;
      assert s[n..] == [];
    } else {
      var init := s[..|s| - 1];
      BodyAt(init, n);
      assert init[..n] == s[..n];
      assert s[n..][..|s[n..]| - 1] == init[n..];
      ConcatAssoc(Body(s[..n]), Body(init[n..]), EntryLine(s[|s| - 1]));
    }
  }

  /**
   * Item `i` is written as line `i` of the body: the body is the lines of the
   * items before it, then its own line, then the lines of the items after it.
   */
  lemma LineOfItem(entries: seq<Entry>, i: nat)
    requires i < |entries|
    requires forall e :: e in entries ==> OneLine(e.key.0) && OneLine(e.key.1)
    ensures Body(entries) == Body(entries[..i]) + EntryLine(entries[i]) + Body(entries[i + 1..])
    ensures Occurrences(Body(entries[..i]), '\n') == i
  {
    BodySplit(entries, i);
    LinesBefore(entries, i);
  }

  lemma BodySplit(entries: seq<Entry>, i: nat)
    requires i < |entries|
    ensures Body(entries) == Body(entries[..i]) + EntryLine(entries[i]) + Body(entries[i + 1..])
  {
    BodyAt(entries, i + 1);
    BodyPrefixStep(entries, i);
  }

  lemma BodyPrefixStep(entries: seq<Entry>, i: nat)
    requires i < |entries|
    ensures Body(entries[..i + 1]) == Body(entries[..i]) + EntryLine(entries[i])
  {
    assert entries[..i + 1][..i] == entries[..i];
  }

  lemma LinesBefore(entries: seq<Entry>, i: nat)
    requires i < |entries|
    requires forall e :: e in entries ==> OneLine(e.key.0) && OneLine(e.key.1)
    ensures Occurrences(Body(entries[..i]), '\n') == i
  {
    forall e | e in entries[..i] ensures OneLine(e.key.0) && OneLine(e.key.1) {
      assert e in entries;
    }
    BodyLineCount(entries[..i]);
  }

  /** Two recipes sharing flour: the amounts are summed and the lines come out by name. */
  lemma FlourAndSugarExample()
    ensures ShoppingList("anna", [[Line("flour", "g", 200), Line("sugar", "g", 50)], [Line("flour", "g", 100)]])
            == Header("anna") + "flour (g) — 300\n" + "sugar (g) — 50\n"
  {
    FlourAndSugarItems();
    FlourAndSugarText();
  }

  lemma FlourAndSugarItems()
    ensures CartItems([[Line("flour", "g", 200), Line("sugar", "g", 50)], [Line("flour", "g", 100)]])
            == [Entry(("flour", "g"), 300), Entry(("sugar", "g"), 50)]
  {
    var lines := [Line("flour", "g", 200), Line("sugar", "g", 50), Line("flour", "g", 100)];
    FlourAndSugarFlatten();
    FlourAndSugarOrder();
    FlourAndSugarSums();
    var items := CartItems([[Line("flour", "g", 200), Line("sugar", "g", 50)], [Line("flour", "g", 100)]]);
    assert |items| == 2;
    assert items[0] == Entry(("flour", "g"), SumOf(lines, ("flour", "g")));
    assert items[1] == Entry(("sugar", "g"), SumOf(lines, ("sugar", "g")));
  }

  lemma FlourAndSugarFlatten()
    ensures Flatten([[Line("flour", "g", 200), Line("sugar", "g", 50)], [Line("flour", "g", 100)]])
            == [Line("flour", "g", 200), Line("sugar", "g", 50), Line("flour", "g", 100)]
  {
    var a, b := [Line("flour", "g", 200), Line("sugar", "g", 50)], [Line("flour", "g", 100)];
    var cart := [a, b];
    assert cart[..1] == [a];
    assert [a][..0] == cart[..0];
    assert Flatten([a]) == a;
  }

  lemma FlourAndSugarOrder()
    ensures FirstSeen([Line("flour", "g", 200), Line("sugar", "g", 50), Line("flour", "g", 100)])
            == [("flour", "g"), ("sugar", "g")]
  {
    var lines := [Line("flour", "g", 200), Line("sugar", "g", 50), Line("flour", "g", 100)];
    assert lines[..2][..1] == [lines[0]] && [lines[0]][..0] == lines[..0];
    assert FirstSeen([lines[0]]) == [("flour", "g")];
    assert FirstSeen(lines[..2]) == [("flour", "g"), ("sugar", "g")];
  }

  lemma FlourAndSugarSums()
    ensures var lines := [Line("flour", "g", 200), Line("sugar", "g", 50), Line("flour", "g", 100)];
      SumOf(lines, ("flour", "g")) == 300 && SumOf(lines, ("sugar", "g")) == 50
  {
    var lines := [Line("flour", "g", 200), Line("sugar", "g", 50), Line("flour", "g", 100)];
    assert lines[1..][1..] == [lines[2]] && [lines[2]][1..] == lines[..0];
    assert SumOf([lines[2]], ("flour", "g")) == 100 && SumOf([lines[2]], ("sugar", "g")) == 0;
    assert SumOf(lines[1..], ("flour", "g")) == 100 && SumOf(lines[1..], ("sugar", "g")) == 50;
  }

  lemma FlourAndSugarText()
    ensures Header("anna") + Body(SortByName([Entry(("flour", "g"), 300), Entry(("sugar", "g"), 50)]))
            == Header("anna") + "flour (g) — 300\n" + "sugar (g) — 50\n"
  {
    FlourAndSugarSorted();
    FlourAndSugarBody();
    ConcatAssoc(Header("anna"), "flour (g) — 300\n", "sugar (g) — 50\n");
  }

  lemma FlourAndSugarSorted()
    ensures var items := [Entry(("flour", "g"), 300), Entry(("sugar", "g"), 50)];
      SortByName(items) == items
  {
    var items := [Entry(("flour", "g"), 300), Entry(("sugar", "g"), 50)];
    assert LexLe("flour", "sugar");
    assert items[1..] == [items[1]];
    assert SortByName(items[1..]) == [items[1]];
  }

  lemma FlourAndSugarBody()
    ensures Body([Entry(("flour", "g"), 300), Entry(("sugar", "g"), 50)]) == "flour (g) — 300\n" + "sugar (g) — 50\n"
  {
    var items := [Entry(("flour", "g"), 300), Entry(("sugar", "g"), 50)];
    FlourLine();
    SugarLine();
    assert items[..1] == [items[0]];
    assert [items[0]][..0] == items[..0];
    assert Body([items[0]]) == EntryLine(items[0]);
  }

  lemma FlourLine()
    ensures EntryLine(Entry(("flour", "g"), 300)) == "flour (g) — 300\n"
  {
    assert Decimal.IntToDecimal(300) == "300" by {
      assert Decimal.NatToDecimal(3) == "3";
      assert Decimal.NatToDecimal(30) == "30";
    }
  }

  lemma SugarLine()
    ensures EntryLine(Entry(("sugar", "g"), 50)) == "sugar (g) — 50\n"
  {
    assert Decimal.IntToDecimal(50) == "50" by {
      assert Decimal.NatToDecimal(5) == "5";
    }
  }
}
