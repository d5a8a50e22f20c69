# Free shipping by class — a Dafny model of its rate policy

The WooCommerce plugin "Frete Grátis por Classe" (`wcfreesc.php`) hooks four
pieces of policy into the cart's pricing pass. This project models those
four pieces and proves what they promise:

- **Rate filtering by priority class** (`filter_package_rates_by_priority`).
  The plugin collects the distinct shipping classes of the package. When
  there are two or more, it picks the first class of the configured priority
  list that is present. It then keeps only the rates of that class:
  - a `free_shipping` rate whose instance is unrestricted or restricted to
    that class;
  - any other rate whose id, or whose label ignoring case, contains the
    class slug.

  If nothing would be left, all rates are kept.
- **Free-shipping-chosen check** (`is_free_shipping_chosen`). Some chosen
  method id contains `free_shipping`.
- **Label annotation** (`modify_free_shipping_label`). A rate with a cost
  that is not positive gets the "GRÁTIS" marker.
- **Restricted-category ceiling** (`validate_espumas_limit`). While free
  shipping is chosen, it sums the line totals of the target category. It
  adds one error notice when the sum is strictly above the limit. The notice
  shows both amounts in the `1.234,56` format.

Layout:

- `cart.dfy` (module `Cart`): the values the host hands in. These are cart
  lines, the rate table (an ordered map, kept as a sequence of id/rate
  entries) and the zone methods. It also defines "order-preserving
  selection" (`IsSubsequence`).
- `php_text.dfy` (module `PhpText`): the PHP string behaviour relied on.
  This covers string truthiness (`""` and `"0"` are falsy), `strpos(...) !==
  false` and `strtolower`.
- `money.dfy` (module `Money`): `number_format($x, 2, ',', '.')` on integer
  cents, with a reader that inverts it.
- `priority_filter.dfy` (module `PriorityFilter`): the rate filter. Each of
  its loops is a method proved equal to a recursive function. The laws are
  lemmas about those functions.
- `free_shipping_limit.dfy` (module `FreeShippingLimit`): the chosen-method
  check, the category sum and the notice.
- `shipping_label.dfy` (module `ShippingLabel`): the label marker.

Host inputs become parameters:

- the matching zone's methods: `zoneMethods`;
- `has_term`: each product's set of category slugs;
- the session's `chosen_shipping_methods`: `Option<seq<string>>`, None when
  it is not an array;
- `is_admin() && !defined('DOING_AJAX')`: `adminNonAjax`;
- the `apply_filters` configuration: `priorities`, `category` and `limit`.

Notices are returned as a list rather than pushed into the session.

## Model

| member | source | states |
|---|---|---|
| `PhpText.ContainsIff` | wcfreesc.php:207 | The left-to-right `strpos` scan succeeds iff the needle occurs at some position of the haystack. |
| `PhpText.ToLower` | wcfreesc.php:206-207 | `strtolower` keeps the length, leaves no ASCII capital, and changes only ASCII capitals (by +32). |
| `Money.ParseFormat` | wcfreesc.php:268-269 | Reading the `[-]d.ddd,dd` text of an amount back gives the same number of cents, so the formatting loses nothing. |
| `Money.GroupFacts` | wcfreesc.php:268-269 | The thousands separators are only inserted: removing the dots gives the digit string back, and the first digit stays first. |
| `Money.GroupLayout` | wcfreesc.php:268-269 | The separators sit where `number_format` puts them. Counted from the right, every fourth character is a `.` and all others are digits. So every group after the first has three digits, and the first group has one to three. There is one separator per full group beyond the first. With `GroupFacts` this fixes the grouped text exactly. |
| `Money.FormatLimitExample` | wcfreesc.php:268-269 | 600.00 is shown as `600,00` and 650.00 as `650,00`. |
| `Money.FormatThousandsExample` | wcfreesc.php:268-269 | 1234.56 is shown as `1.234,56`. |
| `Cart.SubsequenceUniqueIds` | wcfreesc.php:215-217 | Keeping entries of a rate table in order keeps its keys unique. |
| `PriorityFilter.FirstCarrier` | wcfreesc.php:144-152 | The result is the index of the first cart line carrying the class, or the cart length when none does. |
| `PriorityFilter.CartClassesDistinct` | wcfreesc.php:142-152 | The cart classes are truthy (neither `""` nor `"0"`) and pairwise distinct. |
| `PriorityFilter.CartClassesMembers` | wcfreesc.php:144-151 | A class is collected iff some line with a product object carries it. Lines with empty or non-object `data` contribute nothing. |
| `PriorityFilter.CartClassesOrder` | wcfreesc.php:144-151 | The classes are ordered by the line where each first appears. |
| `PriorityFilter.ExtractCartClasses` | wcfreesc.php:142-152 | The collecting loop computes the cart classes (`CartClasses`). |
| `PriorityFilter.FirstPresent` | wcfreesc.php:160-166 | None iff no priority entry is in the cart. Otherwise the result is a cart class, namely the priority entry at some position before which no entry is in the cart. |
| `PriorityFilter.SelectPriorityClass` | wcfreesc.php:160-166 | The search loop with `break` returns `FirstPresent`. |
| `PriorityFilter.InstanceIndexSpec` | wcfreesc.php:178-183 | The instance index holds exactly the instance ids of the zone methods. Each id maps to the last method with that id. |
| `PriorityFilter.IndexZoneMethods` | wcfreesc.php:178-183 | The indexing loop computes `InstanceIndex`. |
| `PriorityFilter.KeepRateSpec` | wcfreesc.php:178-213 | A `free_shipping` rate is kept iff one of two things holds. Either no zone method has its instance id. Or the last zone method with that id has no `get_option`, or its class option is empty or equals the priority class. Any other rate is kept iff the slug occurs in its id or, lowercased, in its lowercased label. |
| `PriorityFilter.KeptOrder` | wcfreesc.php:185-218 | The filtered table is an order-preserving selection of the input. |
| `PriorityFilter.KeptMembers` | wcfreesc.php:185-218 | An entry, with its key and rate, is in the filtered table iff it is in the input and passes the test. The table is empty iff no entry passes. |
| `PriorityFilter.KeptIdempotent` | wcfreesc.php:185-218 | Filtering the filtered table again changes nothing. |
| `PriorityFilter.FilterRates` | wcfreesc.php:185-218 | The key-by-key loop computes `Kept`. |
| `PriorityFilter.FilterPackageRatesByPriority` | wcfreesc.php:137-228 | The hook body computes `FilterByPriority`. It uses the steps above, the truthiness check on the chosen class and the empty-result fallback. |
| `PriorityFilter.FilterByPriorityLaws` | wcfreesc.php:154-227 | The rates come back unchanged with at most one cart class, or when no priority entry is present. The result is the input or a non-empty order-preserving selection of it. A non-empty input never gives an empty result. Unique keys stay unique. |
| `PriorityFilter.FilterByPriorityDecision` | wcfreesc.php:185-227 | When filtering applies and some rate passes, the result holds exactly the passing rates. When none passes, the result is the input. |
| `PriorityFilter.FilterByPriorityIdempotent` | wcfreesc.php:137-228 | Applying the filter to its own output changes nothing. |
| `PriorityFilter.MixedCartExample` | wcfreesc.php:160-222 | The cart holds both default classes and three free-shipping rates. The one bound to `espumas-e-enchimentos` and the unbound one are kept. The one bound to `brasil` is dropped. |
| `FreeShippingLimit.IsFreeShippingChosen` | wcfreesc.php:81-92 | The result is true iff the session value is an array and some chosen id contains `free_shipping`. |
| `FreeShippingLimit.CategoryTotalAppend` | wcfreesc.php:247-258 | The category sum of a concatenated cart is the sum of the parts. |
| `FreeShippingLimit.CategoryTotalBounds` | wcfreesc.php:249-258 | With non-negative line totals the sum is non-negative. It is zero when no line is in the category. |
| `FreeShippingLimit.LimitMessage` | wcfreesc.php:263-271 | The notice text contains the formatted limit and the formatted current total. |
| `FreeShippingLimit.ValidateCategoryLimit` | wcfreesc.php:233-274 | At most one notice is added. One is added iff all of these hold: the context is not admin-without-AJAX, free shipping is chosen, and the category sum is strictly greater than the limit. A sum equal to the limit gives none. The notice is an error carrying the limit message. |
| `ShippingLabel.ModifyFreeShippingLabel` | wcfreesc.php:97-109 | The label is a prefix of the result. The label changes iff the context is not admin-without-AJAX and the cost is not positive. When it changes, exactly the "GRÁTIS" suffix is appended. |

## Left out

- Hook registration, the plugin bootstrap and the `ABSPATH`/WooCommerce guards (wcfreesc.php:10-35, 278) are WordPress plumbing.
- Debug logging (`is_debug`, `log`, every `self::log` call) is an output sink with no effect on any result.
- The `apply_filters` configuration getters (wcfreesc.php:60-76) are replaced by parameters. The default priority list (`['espumas-e-enchimentos', 'brasil']`) is used in `MixedCartExample`. The default limit 600 appears as 60000 cents in `FormatLimitExample`. The default category slug (`espumas-e-enchimentos`) is only a possible value of the `category` parameter, and no statement fixes it.
- `add_free_shipping_class_field` (wcfreesc.php:114-132) is admin form building from host data.
- Zone matching (`WC_Shipping_Zones::get_zone_matching_package`) is a host lookup. Its method list is the `zoneMethods` parameter, empty when no zone matches.
- `has_term` is reduced to membership of the category slug in the product's category set. WordPress also accepts a term name or id there.
- Translation and escaping (`__`, `esc_html__`) are left out. The message template and the label suffix are fixed Portuguese strings.
- Amounts are integer cents. The model does not capture the rounding of `floatval` sums or of `number_format` on non-integral cents. An empty rate cost is represented as 0.
- Non-string values in PHP arrays are not modelled. This covers chosen method ids, priority entries and `get_option` results. Rate ids are strings, so PHP's conversion of numeric string keys to integers is not modelled.
- `strtolower` is the ASCII-only lowering of PHP 8.2 and later. Earlier locale-dependent lowering is not modelled.
- The "value-threshold" selection policy (strictest minimum amount wins) is not modelled. The plugin file has no such code.
- Three points where the code says more or less than its own comments. The model follows the code in each:
  - The docblock of `modify_free_shipping_label` (wcfreesc.php:95) speaks of a zero cost, and the comment at line 103 says "zero or empty". The test at line 104 is `!($method->cost > 0)`, so a negative cost is marked too.
  - `number_format` is called with fixed separators `,` and `.` (wcfreesc.php:268-269). The amounts therefore do not follow the store's own price settings.
  - Rates other than free shipping are matched by the slug's text in the rate id or label (wcfreesc.php:204-207), not by any class the rate declares. A rate whose id or label mentions the slug by coincidence is kept.
