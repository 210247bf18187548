# Foodgram shopping list, modelled in Dafny

Foodgram is a recipe-sharing web backend. A user can subscribe to authors,
mark recipes as favourites and put recipes into a shopping cart. The one
operation with real logic is the download of the shopping list
(`DownloadShoppingCartView.get`). It walks over every recipe in the user's
cart and every ingredient line of each recipe. It sums the amounts per
ingredient key `(name, measurement unit)` in a dictionary. It orders the
dictionary's items by ingredient name. Finally it writes a text file: the
header `Список покупок для <username>`, an empty line, then one line
`<name> (<unit>) — <amount>` per item.

The model has five modules:

- `Aggregation` (aggregation.dfy) holds the cart as data, one `seq<Line>` per
  recipe. `Aggregate` is the nested loop that fills the dictionary. The
  dictionary is a `map<Key, int>` plus the sequence of its keys in insertion
  order, because a Python `dict` returns its items in that order. `Aggregate`
  is proved against the specification functions `SumOf` (the sum over the
  lines with a given key) and `FirstSeen` (the keys in order of first
  occurrence). Its loop invariants use `Summed`, the dictionary the update
  statement builds from the lines visited so far.
- `NameOrder` (name_order.dfy) models `sorted(..., key=name)`. Strings are
  compared by Python's code-point lexicographic order (`LexLe`). The sort is a
  stable insertion sort (`SortByName`), since Python's sort is stable. It is
  proved sorted, a permutation, and stable.
- `Decimal` (decimal.dfy) models how an f-string writes an `int`, with a
  parser that reads it back.
- `ShoppingReport` (shopping_report.dfy) holds the rendering loop (`Render`),
  the whole view (`Download`), and the properties of the finished file.
- `Membership` (membership.dfy) is a class over the stored pair sets:
  subscriptions, favourites and shopping cart. Its methods are the six
  handlers that insert or delete one pair. Each returns the handler's HTTP
  status and its error message.

## Model

| member | source | states |
|---|---|---|
| Aggregation.Aggregate | backend/api/views.py:244-253 | after the nested loops the dictionary's keys are exactly the (name, unit) keys of the cart's lines; each key maps to the sum of the amounts of all lines with that key; the key order is the order of first occurrence |
| Aggregation.AddLineTotals | backend/api/views.py:253 | if every stored total is the sum over the lines visited so far, then after the step every stored total is the sum over those lines and the new one: the amount is added, not written over the old total |
| Aggregation.SummedSpec | backend/api/views.py:244-253 | the dictionary built from a run of lines has exactly the keys of those lines, and each key maps to the sum of the amounts of the lines with that key |
| Aggregation.FirstSeenSpec | backend/api/views.py:244-253 | the dictionary's key order has no repeated key, and it holds exactly the keys occurring in the lines |
| Aggregation.ItemsOf | backend/api/views.py:255 | `ingredients.items()` of a dictionary whose key order lists each of its keys once: one item per position of the key order, carrying that key's stored total; an item is present exactly when its key is in the dictionary with that total; no two items share a key |
| Aggregation.SumOfAppend | backend/api/views.py:253 | the total over two runs of lines is the sum of the totals over each run |
| Aggregation.SumOfAbsentKey | backend/api/views.py:253 | a key carried by no line sums to 0 |
| Aggregation.SumOfPositive | backend/recipes/models.py:61-63 | if every amount is at least 1, a key that occurs sums to at least 1 and a key that does not occur sums to 0 |
| Aggregation.SumOfPermutation | backend/api/views.py:247-253 | visiting the same lines in another order gives the same total for every key |
| Aggregation.FlattenPermutation | backend/api/views.py:247-248 | visiting the cart's recipes in another order visits the same multiset of lines |
| Aggregation.TotalsIndependentOfOrder | backend/api/views.py:247-253 | two orders of the same recipes give the same set of keys and the same total for every key |
| Aggregation.OtherUnitKeptApart | backend/api/views.py:252 | a line with the same name but another unit does not change the total for (name, unit), and its own (name, unit) key becomes a separate key |
| Aggregation.CartItemsSpec | backend/api/views.py:244-255 | the items of a cart have distinct keys; an item is present exactly when its key occurs in the cart and its total is that key's sum |
| Aggregation.CartItemsCount | backend/api/views.py:244-255 | there are as many items as distinct (name, unit) keys in the cart |
| Aggregation.EmptyCart | backend/api/views.py:243-244 | an empty cart gives no keys and no items |
| NameOrder.LexLeTotal | backend/api/views.py:255 | any two names are comparable under Python's string order |
| NameOrder.LexLeAntisymmetric | backend/api/views.py:255 | two names each at most the other are equal |
| NameOrder.LexLeTransitive | backend/api/views.py:255 | Python's string order is transitive |
| NameOrder.InsertByName | backend/api/views.py:255 | inserting an item adds exactly that item to the multiset of items |
| NameOrder.SortByName | backend/api/views.py:255 | sorting by name is a permutation of the items |
| NameOrder.InsertByNameSorted | backend/api/views.py:255 | inserting into a list sorted by name keeps it sorted by name |
| NameOrder.SortByNameSorted | backend/api/views.py:255 | the sorted items are in non-decreasing order of name |
| NameOrder.InsertByNameWithName | backend/api/views.py:255 | an insertion puts the new item ahead of every item with the same name |
| NameOrder.SortByNameStable | backend/api/views.py:255 | items with the same name (same name, other unit) leave the sort in the order they entered it |
| Decimal.NatToDecimal | backend/api/views.py:259 | a non-negative amount is written as at least one digit, with no leading zero except for "0" itself |
| Decimal.IntToDecimal | backend/api/views.py:259 | an amount is written as digits, preceded by '-' exactly when it is negative |
| Decimal.NatToDecimalValue | backend/api/views.py:259 | the digits written for a non-negative amount denote that amount |
| Decimal.IntToDecimalRoundTrip | backend/api/views.py:259 | parsing the text written for an amount gives back the amount |
| Decimal.IntToDecimalInjective | backend/api/views.py:259 | different amounts are written as different texts |
| ShoppingReport.Render | backend/api/views.py:257-259 | the text is the header naming the user and an empty line, followed by the line of each item in order |
| ShoppingReport.Download | backend/api/views.py:241-259 | the view's text is the header followed by the lines of the cart's summed items, sorted by name |
| ShoppingReport.EmptyCartReport | backend/api/views.py:243-259 | for an empty cart the file is exactly `Список покупок для ` + username + two newlines |
| ShoppingReport.ReportItems | backend/api/views.py:244-259 | the file's items are sorted by name; there is one per distinct (name, unit) key; an item appears exactly when its key occurs in the cart and its amount is that key's sum |
| ShoppingReport.ReportAmountsPositive | backend/recipes/models.py:61-63 | when every line amount is at least 1, every amount in the file is at least 1 |
| ShoppingReport.ReportIndependentOfCartOrder | backend/api/views.py:247-255 | visiting the cart's recipes in another order gives a file with the same number of items and the same items |
| ShoppingReport.ReportNamesIndependentOfCartOrder | backend/api/views.py:247-255 | visiting the cart's recipes in another order puts an item with the same name at every position of the file, so only items sharing a name (one name in two units) can change places |
| NameOrder.SortedSameNames | backend/api/views.py:255 | two name-sorted orderings of the same items have the same name at every position |
| ShoppingReport.CartRecipesLines | backend/api/views.py:247-248 | the lines the nested loop visits are exactly the ingredient lines of the recipes the cart query lists |
| Aggregation.FlattenMember | backend/api/views.py:247-248 | a line is visited exactly when it belongs to one of the cart's recipes |
| ShoppingReport.CartRecipesPermutation | backend/api/views.py:247-248 | two orders of the same cart rows give the same multiset of recipes |
| ShoppingReport.ListingOrderIrrelevant | backend/recipes/models.py:108-118 | the cart is a set of (user, recipe) rows, each listed once by the query; any two listings of it give a file with the same items |
| ShoppingReport.EntryLineIsOneLine | backend/api/views.py:259 | one item's text is a single line ending in a newline, when its name and unit contain no newline |
| ShoppingReport.BodyLineCount | backend/api/views.py:258-259 | when no name or unit contains a newline, the item lines hold exactly one newline per item |
| ShoppingReport.LineOfItem | backend/api/views.py:258-259 | when no name or unit contains a newline: item i is written after the lines of the items before it and before the lines of the items after it, and exactly i newlines precede it, so it is line i |
| ShoppingReport.ReportLineCount | backend/api/views.py:257-259 | the file has two header lines plus exactly one line per distinct (name, unit) key of the cart |
| ShoppingReport.FlourAndSugarExample | backend/api/views.py:241-259 | example: recipes [(flour, g, 200), (sugar, g, 50)] and [(flour, g, 100)] give the header followed by `flour (g) — 300` and then `sugar (g) — 50` |
| Membership.Store.Subscribe | backend/api/views.py:128-138 | 404 when the author does not exist; 400 for subscribing to oneself; 400 when already subscribed; otherwise 201 and exactly the pair (user, author) is inserted; on every error the set is unchanged; the handler never adds a self-subscription, so a set without one stays without one |
| Membership.Store.Unsubscribe | backend/api/views.py:140-148 | 404 when the author does not exist; 400 when not subscribed, with the set unchanged; otherwise 204 and exactly that pair is removed; a set without self-subscriptions stays without one |
| Membership.Store.Favorite | backend/api/views.py:180-188 | 404 for a missing recipe; 400 when already a favourite, with the set unchanged; otherwise 201 and exactly that pair is inserted |
| Membership.Store.DeleteFavorite | backend/api/views.py:190-197 | 404 for a missing recipe; 204 and exactly that pair removed when present; otherwise 400 and nothing changes |
| Membership.Store.AddToCart | backend/api/views.py:208-216 | 404 for a missing recipe; 400 when the recipe is already in the cart, with the cart unchanged; otherwise 201 and the user's cart gains exactly that recipe |
| Membership.Store.RemoveFromCart | backend/api/views.py:218-226 | 404 for a missing recipe; 204 and the user's cart loses exactly that recipe when present; otherwise 400 and nothing changes |
| Membership.CartRoundTrip | backend/api/views.py:208-226 | adding a recipe, adding it again (refused), removing it and removing it again (refused) leaves the cart as it was |

## Left out

- The database queries are not modelled (`ShoppingCart.objects.filter`, `ingredient_amounts.all()`). The cart is given as data: a sequence of line lists. A recipe's lines are given by a lookup function.
- The order in which the database lists cart rows is not modelled. Every order is allowed. `ReportIndependentOfCartOrder` and `ReportNamesIndependentOfCartOrder` show that only same-name items can change places.
- The `HttpResponse`, its content type and the `Content-Disposition` header are not modelled (backend/api/views.py:261-263). The model stops at the text.
- Authentication is not modelled. The requesting user is assumed to be an existing user (`requires user in users`).
- The bodies of the 201 responses are not modelled. They are serializer output (backend/api/serializers.py is not part of this model); only the status and the error messages are modelled.
- Other views are not modelled: ingredient search, registration, `me`, `set_password`, avatar upload and removal, the subscription and cart listings with pagination, recipe filtering and creation, and the short link. They are framework plumbing with no logic of their own.
- backend/api/management/commands/load_ingredients.py (file I/O and JSON), backend/api/admin.py and backend/api/urls.py are not part of this model.
- Unicode collation is not modelled. Names are compared by code point, which is what Python's `str` comparison does.
- The uniqueness of (name, unit) per ingredient and of (recipe, ingredient) per recipe is not assumed. The model sums any repeated key, as the code would.
- Amounts are unbounded integers, as in Python. The at-least-1 rule is a precondition only where a lemma needs it.
- ShoppingReport.ReportLineCount: holds only when the username, names and units contain no newline. The database does not forbid one, and a newline inside a name would add a line.
- Database errors are not modelled. A failing query propagates to the caller in the source.
- Each membership handler is modelled as one atomic step. The source checks `exists()` and then writes, with no transaction (backend/api/views.py:134-136, 184-186, 212-214). Two identical requests at the same time can both pass the check; the second insert then breaks the table's uniqueness constraint and fails with a server error, not a 400. The model does not capture this race.
- Self-subscriptions are not excluded from the stored state. The table has only the uniqueness constraint (backend/users/models.py:69), and the admin site (backend/api/admin.py:17-19) can store a self-subscription. `Valid()` therefore leaves them out. `Subscribe` and `Unsubscribe` promise only that they never add one (`NoSelfSubscriptions` is kept when it held before).
