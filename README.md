# Tyre shop: cart, checkout and catalogue annotations in Dafny

This project models the core of a Django tyre shop and proves properties of
that model. The core covered is:

- the session cart: a dictionary of lines keyed by the variant id, kept in
  insertion order. It supports add, update, remove, iterate, count, total and
  clear, and the three cart views drive it.
- checkout: one order is created from a valid form, then one order line per
  iterated cart item, then the cart is cleared. The staff view overwrites the
  order's status, and the customer view finds only the customer's own orders.
- the checkout form's phone and address checks, and the field rules of the
  order model.
- the order models: the status choices and default, line cost, order total,
  and the rule that a line names exactly one of a tyre or a rim.
- the variant stock predicates, the text forms of models and variants,
  category URLs and the one-favourite-per-pair rule.
- the catalogue annotations: radius ranges, minimum price and season label,
  plus the brand list of the filter panel.

Prices are whole kopecks (`int`). The catalogue is a `map` from variant id to
variant. The session is a class holding the stored cart, or `None` once the
cart has been deleted, and the `modified` flag. The order tables are a class
holding two sequences and the next primary key.

Modules, one per source file plus three shared ones:

| module | models |
|---|---|
| `Wrappers` | `Option`, `Result` |
| `Text` | `str.strip`, `str.capitalize`, `str.isdigit`, `str(int)`, `int(str)`, string order |
| `Sorting` | `sorted(set(...))` for any strict order |
| `TyreModels` | tyres/models.py |
| `TyreViews` | `annotate_tyres` and the brand list of tyres/views.py |
| `CartModels` | cart/models.py `Cart` |
| `CartViews` | cart/views.py |
| `OrderModels` | orders/models.py |
| `OrderForms` | orders/forms.py |
| `OrderViews` | orders/views.py |

`CartModels.Cart`, `OrderViews.Database` and `TyreViews.TyreCard` are classes
because the source updates those objects in place. Each of their methods is
proved against a pure function on values (`AddLine`, `RemoveLine`,
`Refresh`, `ItemsFor`, `Annotations`, ...), and the lemmas are stated about
those functions.

## Model

| member | source | states |
|---|---|---|
| Text.Strip | cart/views.py:11 | `str.strip()`: the result is no longer than the text, and neither starts nor ends with whitespace; `StripIsSlice` states that only whitespace is removed |
| Text.StripUnpadded | orders/forms.py:22 | text that neither starts nor ends with whitespace is its own strip |
| Text.StripIsSlice | orders/forms.py:22 | the stripped text is a contiguous slice of the original, and everything before and after that slice is whitespace |
| Text.IsDigitText | orders/forms.py:22 | `str.isdigit()`: a digit text is non-empty and neither starts nor ends with whitespace, so stripping leaves it as it is |
| Text.Capitalize | tyres/views.py:48 | `capitalize()` keeps the length |
| Text.CapitalizeIdempotent | tyres/views.py:48 | capitalizing twice is capitalizing once |
| Text.Join | tyres/views.py:31 | `", ".join(parts)`: no parts give "", one part gives itself; the result starts with the first part and ends with the last |
| Text.IntToString | cart/models.py:21 | `str(id)` is never empty |
| Text.ParseInt | cart/views.py:13 | `int(text)`: only non-empty text parses |
| Text.IntToStringParses | cart/views.py:13 | `int(str(n)) == n` for every integer |
| Text.IntToStringInjective | cart/models.py:21 | distinct ids give distinct cart keys |
| Text.StrLessIrreflexive | tyres/views.py:48 | the string order used by `sorted` is irreflexive |
| Text.StrLessTransitive | tyres/views.py:48 | the string order is transitive |
| Text.StrLessTotal | tyres/views.py:48 | any two distinct strings are ordered one way |
| Sorting.SortDistinct | tyres/views.py:14 | `sorted(set(xs))` is strictly increasing and has exactly the elements of `xs` |
| Sorting.IncreasingUnique | tyres/views.py:14 | two strictly increasing sequences with the same elements are equal, so the sorted list is determined by the set |
| TyreModels.ChoiceLabel | tyres/views.py:38 | `get_season_display()`: the label paired with a listed value, or the value itself when it is not listed |
| TyreModels.SeasonLabels | tyres/models.py:21-25 | the labels of the three seasons |
| TyreModels.IsInStock | tyres/models.py:58-59 | `is_in_stock()` holds exactly when one tyre can be ordered |
| TyreModels.CanOrder | tyres/models.py:61-62 | `can_order(q)`: with a stock that is never negative, a quantity of zero or less is always orderable; `CanOrderAndInStock` states the rest |
| TyreModels.CanOrderAndInStock | tyres/models.py:58-62 | `can_order(1)` iff `is_in_stock()`; an orderable quantity stays orderable when lowered; in stock iff some positive quantity can be ordered |
| TyreModels.ModelLabel | tyres/models.py:17-18 | `str(model)` is the brand, a space, then the name |
| TyreModels.VariantLabel | tyres/models.py:55-56 | `str(variant)` is laid out as the model's text, a space, the width, `/`, the profile, ` R`, the radius, a space and the speed index, each at its own place |
| TyreModels.VariantLabelReadsBack | tyres/models.py:55-56 | `str(variant)` reads back field by field: the width, profile and radius printed in it parse back to the variant's own values |
| TyreModels.ValidVariantCases | tyres/models.py:38-62 | the tested variant (205/55 R16, stock 10) is valid, in stock, orderable for 5 and not for 15; a width of 100 or a negative price is not valid |
| TyreModels.CategoryUrl | tyres/models.py:101-102 | `get_absolute_url()` is `/catalog/`, then the slug, then `/`: ten characters more than the slug |
| TyreModels.CategoryUrlSlug | tyres/models.py:101-102 | the URL holds the slug between `/catalog/` and `/`, so distinct slugs give distinct URLs |
| TyreModels.CreateFavourite | tyres/models.py:70 | a second row for the same (user, variant) is refused; otherwise the row is added and pairs stay unique |
| TyreModels.GetOrCreateFavourite | tyres/views.py:175-178 | `add_favourite`: afterwards the pair is present exactly once, and an existing row is kept |
| TyreModels.RemoveFavourite | tyres/views.py:181-184 | `remove_favourite`: the pair is gone and every other row is kept |
| TyreViews.SortedRadii | tyres/views.py:14 | the present radii, strictly ascending and each exactly once |
| TyreViews.RunsPartition | tyres/views.py:16-31 | the runs cover exactly the radii, are separated by gaps and are maximal; no radii gives no runs |
| TyreViews.LabelsAppend | tyres/views.py:23-30 | labelling runs distributes over appending them |
| TyreViews.GroupRuns | tyres/views.py:17-30 | the grouping loop yields one label per run, in order |
| TyreViews.AnnotateRadiusRange | tyres/views.py:14-33 | `radius_range` is the run labels joined by ", ", or "—" when there are no radii |
| TyreViews.MinPrice | tyres/views.py:35-36 | the smallest present price and one of them, or `None` exactly when none is present |
| TyreViews.SeasonDisplay | tyres/views.py:38 | "—" with no variants; otherwise the first variant's listed season label |
| TyreViews.TyreCard.Annotate | tyres/views.py:12-38 | after one pass over a card its three attributes equal the annotations of its variants |
| TyreViews.AnnotateTyres | tyres/views.py:10-39 | every card on the page is annotated |
| TyreViews.NormalisedBrands | tyres/views.py:48 | exactly the stripped, capitalized non-empty brands |
| TyreViews.BrandList | tyres/views.py:48 | the brand list is strictly increasing and holds exactly the normalised non-empty brands |
| CartModels.Lookup | cart/models.py:50-51 | a key names a variant of the catalogue, or none |
| CartModels.LookupIdKey | cart/models.py:21 | the key of a variant's id finds that variant exactly when it exists |
| CartModels.RemoveKey | cart/models.py:42-43 | `del`: the keys without the given one, still distinct, unchanged when absent |
| CartModels.RemoveKeyKeepsOrder | cart/models.py:42-43 | `del` takes the key out of its one place and keeps every other key in insertion order |
| CartModels.StartingCart | cart/models.py:11-15 | a missing or empty stored cart becomes a new empty one, otherwise the stored one is used |
| CartModels.Cart.constructor | cart/models.py:6-15 | the cart is the starting cart and is stored in the session; `modified` is set only when a fresh cart was stored |
| CartModels.AddLine | cart/models.py:17-28 | adding keeps the key order listing every key once |
| CartModels.AddLineEffect | cart/models.py:21-27 | a new key is appended with the variant's price; quantity is set when updating and added otherwise; an existing line keeps its stored price; other lines unchanged |
| CartModels.AddLineTotal | cart/models.py:17-28 | the cart count changes by the quantity added, or by the new quantity less the old one |
| CartModels.Cart.Add | cart/models.py:17-28 | the cart becomes `AddLine` of the old cart and is saved |
| CartModels.Cart.Save | cart/models.py:30-35 | the session holds the cart and is marked modified |
| CartModels.RemoveLine | cart/models.py:37-44 | the key is gone, every other line is kept, and the other keys keep their order (the key is cut out of its one place); a missing key leaves the cart as it was |
| CartModels.PositiveCartEmpty | cart/models.py:61-65 | when every line holds at least one tyre, `len(cart)` is at least the number of lines, and 0 exactly when the cart has no lines |
| CartModels.RemoveLineTotal | cart/models.py:37-44 | count and total drop by exactly the removed line's quantity and cost |
| CartModels.Cart.Remove | cart/models.py:37-44 | the cart becomes `RemoveLine` of the old cart; the session is saved only when the key was present |
| CartModels.Refresh | cart/models.py:46-59 | iteration keeps the keys and their order |
| CartModels.RefreshEffect | cart/models.py:50-58 | a line whose variant exists takes the variant and its current price; otherwise it keeps what it had; quantity is kept; `total_price` is price times quantity |
| CartModels.RefreshTotals | cart/models.py:46-71 | iteration keeps the count; the total afterwards is the sum of the line totals |
| CartModels.RefreshedTotalNonNegative | cart/models.py:50-71 | with a catalogue of valid variants and stored lines of non-negative price and quantity, the total after iteration is not negative |
| CartModels.Items | cart/models.py:57-59 | one item per line, in insertion order |
| CartModels.SumOfLines | cart/models.py:61-71 | summing over the keys equals summing over the yielded items |
| CartModels.AttachProducts | cart/models.py:50-55 | the first loop of `__iter__` sets the variant and its price on every line whose variant exists |
| CartModels.TotalLines | cart/models.py:57-59 | the second loop sets every line's `total_price` and yields the lines in order |
| CartModels.RefreshByLoops | cart/models.py:50-59 | the two loops together compute `Refresh` |
| CartModels.Cart.Iterate | cart/models.py:46-59 | the cart becomes `Refresh` of the old cart, the yielded items are its lines in order, and the session is not marked modified |
| CartModels.Cart.Len | cart/models.py:61-65 | `len(cart)` is the sum of the quantities |
| CartModels.Cart.GetTotalQuantity | cart/models.py:80-84 | the sum of the quantities |
| CartModels.Cart.GetTotalPrice | cart/models.py:67-71 | the sum of price times quantity over the lines |
| CartModels.Cart.Clear | cart/models.py:73-78 | the stored cart is deleted and the session marked modified; the result tells whether the deletion found a cart |
| CartModels.LineTotalAsWritten | cart/models.py:50-58 | a line whose variant is gone keeps its text price, so its total is that text repeated quantity times |
| CartModels.MissingProductTotal | cart/models.py:58 | two of a deleted 100.00 product total "100.00100.00" as written, 20000 kopecks as corrected |
| CartViews.NormaliseQuantity | cart/views.py:11-17 | the stripped field as an integer when it parses and is at least 1; otherwise 1 |
| CartViews.NormaliseQuantityOfNumber | cart/views.py:11-17 | a number sent as text comes back as itself when at least 1, else 1 |
| CartViews.UpdateFlag | cart/views.py:18 | `update_quantity`: set by any quantity above one, and unset only when the flag is not "true"; `AccumulatesOnlySingles` gives the exact condition |
| CartViews.AccumulatesOnlySingles | cart/views.py:18 | the line is added to only when one tyre is sent without the flag |
| CartViews.AddOutcome | cart/views.py:10-22 | 404 iff the variant is unknown; accepted iff the quantity is within the stock; refused with the stock otherwise |
| CartViews.CartAddEffect | cart/views.py:7-26 | a refused request leaves the cart as it was |
| CartViews.CartAddAccepted | cart/views.py:18-24 | an accepted add has 1 <= quantity <= stock and sets the line to the quantity or adds one; a new line is appended with the variant's price, an existing one keeps its key position and stored price; every other line is unchanged |
| CartViews.StockGateIgnoresCart | cart/views.py:20 | the stock check ignores what the cart holds: one in stock, one in the cart, one more added gives two |
| CartViews.CartAdd | cart/views.py:7-26 | the outcome is `AddOutcome` and the session cart is `CartAddEffect` of the starting cart |
| CartViews.UpdateOutcome | cart/views.py:41-51 | 404 iff unknown; updated iff within the stock; refused with the stock otherwise |
| CartViews.CartUpdateEffect | cart/views.py:39-58 | within the stock the line is overwritten with the quantity sent, a new line is appended with the variant's price, an existing one keeps its key position and stored price, and every other line is unchanged; beyond the stock nothing changes |
| CartViews.CartUpdate | cart/views.py:39-58 | the outcome is `UpdateOutcome` and the session cart is `CartUpdateEffect` of the starting cart |
| CartViews.CartRemoveEffect | cart/views.py:28-31 | the variant's line is gone, every other line is kept and the other keys keep their order; an unknown variant or a variant without a line changes nothing |
| CartViews.ViewsKeepPositive | cart/views.py:11-53 | add, update and remove keep every line at one tyre or more |
| CartViews.CartRemove | cart/views.py:28-33 | 404 iff unknown, and the session cart is `CartRemoveEffect` of the starting cart |
| OrderModels.NewOrder | orders/models.py:6-24 | a new order holds every given field, and its status is "new", one of the listed statuses |
| OrderModels.NewItem | orders/models.py:43 | a line created without a quantity has quantity 1, which the field accepts |
| OrderModels.GetCost | orders/models.py:48-49 | `get_cost()`: a line of one or more at a non-negative price costs at least that price, and a line of zero costs nothing |
| OrderModels.GetTotalCost | orders/models.py:35-36 | `get_total_cost()` of an order that no line belongs to is 0; `TotalCostAppend` states how it grows |
| OrderModels.ItemsOf | orders/models.py:36 | `self.items.all()`: exactly the lines of this order |
| OrderModels.TotalCostAppend | orders/models.py:35-36 | added lines add their costs to their order's total and leave other orders' totals unchanged |
| OrderModels.TotalCostBounds | orders/models.py:35-49 | an order without lines costs 0; non-negative prices and quantities give a non-negative total |
| OrderModels.Clean | orders/models.py:51-56 | accepted iff exactly one of tyre and rim is set; neither and both are refused with their own messages |
| OrderForms.PhoneShapeIsPattern | orders/forms.py:14 | the shape is "+7", "8" or "7" followed by exactly ten digits |
| OrderForms.CleanPhone | orders/forms.py:10-17 | accepted iff the pattern matches (`$` also matches before a final newline); an accepted phone is returned unchanged |
| OrderForms.AcceptedPhoneLength | orders/forms.py:14 | an accepted phone has 11 or 12 characters, or 12 or 13 with a final newline |
| OrderForms.PhoneExamples | orders/forms.py:14-16 | "+7..." and "8..." numbers pass, a digit short fails, a final newline passes |
| OrderForms.CleanAddress | orders/forms.py:19-24 | refused iff the stripped text is shorter than 5 or all digits; an accepted address is returned unchanged |
| OrderForms.DigitsOnlyAddress | orders/forms.py:22-23 | a house number alone is refused whatever its length |
| OrderForms.PaddedShortAddress | orders/forms.py:22-23 | spaces around an address do not count towards its length |
| OrderForms.UnpaddedAddressAccepted | orders/forms.py:22-24 | five or more characters, unpadded, not starting with a digit: accepted |
| OrderForms.StreetAddress | orders/forms.py:22-24 | a street with a house number is accepted |
| OrderForms.Errors | orders/forms.py:10-28 | the failing fields are exactly those that fail their rules |
| OrderForms.ValidExactly | orders/forms.py:10-28 | the form is valid iff every required field is filled within its length, the email is valid, and phone and address pass |
| OrderForms.ErrorFields | orders/forms.py:10-24 | a bad phone or address is reported under its own field, and the note never fails |
| OrderViews.Database.InsertOrder | orders/views.py:20 | the order is stored under the next key |
| OrderViews.Database.InsertItem | orders/views.py:23-28 | the line is appended, nothing else changes |
| OrderViews.OrderFromForm | orders/views.py:18-19 | the saved order belongs to the requesting user, holds every field of the form (names, email, phone, address, postal code, city, note) and has status "new" |
| OrderViews.ItemsFor | orders/views.py:22-28 | one line per item, with that item's variant, price and quantity, up to the first item without a product |
| OrderViews.OrderCreate | orders/views.py:8-46 | empty cart and shown form change nothing; a valid form stores one order for the user and the lines of the iterated cart; the cart is cleared only after all lines are stored |
| OrderViews.PlaceOrder | orders/views.py:18-31 | the order, then the lines, then the clear |
| OrderViews.CreateItems | orders/views.py:22-28 | the creation loop stores `ItemsFor` the iterated items |
| OrderViews.CreatedOrderTotal | orders/views.py:22-31 | a created order has one line per cart line, and its `get_total_cost` equals the refreshed cart's total |
| OrderViews.StoredLinesTotal | orders/models.py:35-36 | the new order's lines cost together what their items do |
| OrderViews.CreatedWhenProductsExist | orders/views.py:22-28 | when every product still exists, each line has the variant, its current price and the cart quantity |
| OrderViews.StoredBeforeMissing | orders/views.py:22-28 | when line m is the first whose variant was deleted, checkout stores exactly the m lines before it, each with its variant, current price and quantity |
| OrderViews.FirstMissingProduct | orders/views.py:8-31 | with such a line, a non-empty cart and a valid form, checkout ends in `MissingProduct`, which keeps the cart (by `OrderCreate`) |
| OrderViews.ItemsForStopsAt | orders/views.py:22-28 | the creation loop stores exactly the items before the first one without a product |
| OrderViews.DeletedProductOrder | orders/views.py:24 | a one-line cart whose product was deleted stores the order without lines |
| OrderViews.OtherTotalsUnchanged | orders/views.py:22-28 | checkout does not change any other order's total |
| OrderViews.NextStatus | orders/views.py:66-70 | the status changes iff a non-empty value different from the current one is sent |
| OrderViews.NextStatusSettles | orders/views.py:68-70 | sending the same status again changes nothing; an empty value keeps the status |
| OrderViews.UnlistedStatusStored | orders/views.py:68-70 | a value outside the listed statuses is stored all the same |
| OrderViews.IndexOfId | orders/views.py:65 | the first order with the key, or none |
| OrderViews.AdminOrderDetail | orders/views.py:63-71 | 404 iff no order has the key; the order is saved iff the status changes, and of the modelled fields only its status changes |
| OrderViews.OrderDetail | orders/views.py:53-56 | finds an order only when both its key and its owner match |
| OrderViews.NewOrderVisibleToOwnerOnly | orders/views.py:55 | a just-created order is found by its owner and by no other user |

## Left out

- Decimal and float prices are modelled as whole kopecks, so float rounding
  in `get_total_price` and in the refreshed line prices is not modelled.
- Requests, redirects, messages, templates, HTMX partials and pagination are
  left out. Each view returns an outcome value instead.
- ORM queries are modelled as maps and sequences. The catalogue order of the
  first loop of `__iter__` (cart/models.py:52-55) does not change the result,
  and the model processes the lines in key order.
- The session stores the cart as a value. How the session serialises
  variants, and the persistence that `modified` triggers, are not modelled.
- `__iter__` is a generator. Its first loop (cart/models.py:52-55) runs to
  the end at the first `next()`, so every line whose variant exists has its
  product and price set before anything is yielded, as in the model. The
  second loop sets `total_price` one line at a time, just before the line is
  yielded. When checkout stops at a missing product, the model's session cart
  therefore differs from the source's only in `total_price`: the lines after
  the failing one have it set in the model and not in the source, and the
  failing line has a number in the model where the source has the repeated
  price text described under "## Findings".
- Whitespace and digits are the ASCII ones plus the ASCII control separators.
  Unicode whitespace, Unicode digits for `isdigit` and `\d`, and case mapping
  beyond ASCII are not modelled.
- `int()` is modelled on optional sign, digits and single underscores between
  digits. Other forms it accepts (Unicode digits) are not modelled.
- The email validator is a parameter (`emailValid`), because it belongs to
  the framework.
- Form fields are taken as already cleaned. The framework's stripping of
  `CharField` input before `clean_phone` and `clean_address` is not modelled.
- The note limit of 150 characters (orders/forms.py:7) is only a widget
  attribute, so the model does not check it.
- The refusal path of `cart_add` reads `tyre.tyre_model` (cart/views.py:22).
  A variant has no such attribute, so that request fails after the stock
  check with the cart unchanged. The model returns `OutOfStock` and leaves the
  cart unchanged.
- `order_list`, `admin_orders` and `admin_order_delete` are plain queries and
  are not modelled. Authentication, staff checks and the admin are left out.
- `get_object_or_404` in `admin_order_detail` is modelled as the first order
  with the key. Keys are unique in the table.
- There are no transactions, and the model does not capture concurrency.
- The `created` and `updated` timestamps of an order (orders/models.py:22-23)
  are not modelled, so the model does not capture that `order.save()` in
  `admin_order_detail` refreshes `updated`.
- Rim variants and rim views are not part of this model.
- TyreModels.ValidVariant states the validator ranges and choices. Model
  validation is not run on `objects.create` (tyres/tests.py:52-77), so no
  operation of the model enforces it; `CartModels.RefreshedTotalNonNegative`
  takes it as an assumption about the catalogue.
- TyreViews.SeasonDisplay states only the listed seasons' labels. For an
  unlisted stored value it gives back the value, by `ChoiceLabel`.
- Text.ParseInt: its own contract states only that empty text does not
  parse. What it computes on numbers is stated by `Text.IntToStringParses`,
  and the rest of its behaviour by its definition.
- Text.Capitalize: its contract states only the length. Idempotence is
  proved separately, and case mapping is ASCII only.
- CartModels.Cart.Clear does not model the `KeyError` that the source raises
  when the cart is cleared twice. It reports the second clear as not having
  found a cart.

## Findings

| source | as written | input that shows it | evidently intended | confidence | as-written member | corrected member |
|---|---|---|---|---|---|---|
| cart/models.py:58 | a line whose variant no longer exists keeps the text price `str(tyre.price)` stored by `add`, so `item['price'] * item['quantity']` repeats the text | a line of quantity 2 and price 100.00 whose variant was deleted gives `total_price` "100.00100.00" | the number 200.00 (20000 kopecks) | not executed | CartModels.LineTotalAsWritten, CartModels.MissingProductTotal | CartModels.RefreshEffect, CartModels.RefreshTotals |
