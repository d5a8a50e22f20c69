/** The values the plugin receives from WooCommerce for one pricing pass:
    cart lines, the rate table of a package, and the shipping-zone methods.
    Money is in integer cents. */
module Cart {

  datatype Option<+T> = None | Some(value: T)

  /** The product object behind a cart line: its shipping-class slug
      (`get_shipping_class()`) and the product-category slugs it carries
      (what `has_term(..., 'product_cat', ...)` consults). */
  datatype Product = Product(shippingClass: string, categories: set<string>)

  /** One cart line. `data` is None when `$item['data']` is empty or not an
      object. `lineTotal` is `$item['line_total']` in cents. */
  datatype CartItem = CartItem(data: Option<Product>, lineTotal: int)

  /** A `WC_Shipping_Rate`: its method id (`free_shipping`, `flat_rate`, ...),
      the zone-method instance it comes from, its label (`labelText`) and its cost. */
  datatype Rate = Rate(methodId: string, instanceId: int, labelText: string, cost: int)

  /** One entry of the `$rates` array: the rate id key and its rate. */
  datatype RateEntry = RateEntry(id: string, rate: Rate)

  /** The `$rates` array, an ordered map from rate id to rate. */
  type Rates = seq<RateEntry>

  /** A PHP array has each key once. */
  ghost predicate UniqueIds(rates: Rates) {
    forall i, j :: 0 <= i < j < |rates| ==> rates[i].id != rates[j].id
  }

  /** A method of the matching shipping zone. `instanceId` is None when the
      object has no `instance_id`; `freeShippingClass` is the value of its
      `frete_gratis_para_classe` option, None when the object has no
      callable `get_option`. */
  datatype ZoneMethod = ZoneMethod(instanceId: Option<int>, freeShippingClass: Option<string>)

  /** `a` keeps some of the entries of `b`, in the same order. */
  ghost predicate IsSubsequence<T>(a: seq<T>, b: seq<T>)
    decreases |b|
  {
    if a == [] then true
    else if b == [] then false
    else (a[|a| - 1] == b[|b| - 1] && IsSubsequence(a[..|a| - 1], b[..|b| - 1]))
         || IsSubsequence(a, b[..|b| - 1])
  }

  lemma {:induction false} SubsequenceMembers<T>(a: seq<T>, b: seq<T>)
    requires IsSubsequence(a, b)
    ensures forall x :: x in a ==> x in b
    decreases |b|
  {
    if a != [] {
      if a[|a| - 1] == b[|b| - 1] && IsSubsequence(a[..|a| - 1], b[..|b| - 1]) {
        SubsequenceMembers(a[..|a| - 1], b[..|b| - 1]);
        assert a == a[..|a| - 1] + [a[|a| - 1]];
        assert b == b[..|b| - 1] + [b[|b| - 1]];
      } else {
        SubsequenceMembers(a, b[..|b| - 1]);
        assert b == b[..|b| - 1] + [b[|b| - 1]];
      }
    }
  }

  /** Keeping entries of a table in order keeps its keys unique. */
  lemma {:induction false} SubsequenceUniqueIds(a: Rates, b: Rates)
    requires IsSubsequence(a, b) && UniqueIds(b)
    ensures UniqueIds(a)
    decreases |b|
  {
    if a != [] {
      var a', b' := a[..|a| - 1], b[..|b| - 1];
      assert UniqueIds(b');
      if a[|a| - 1] == b[|b| - 1] && IsSubsequence(a', b') {
        SubsequenceUniqueIds(a', b');
        SubsequenceMembers(a', b');
        forall i | 0 <= i < |a'|
          ensures a[i].id != a[|a| - 1].id
        {
          assert a[i] == a'[i] && a'[i] in b';
          var k :| 0 <= k < |b'| && b'[k] == a'[i];
          assert b[k] == a[i];
        }
      } else {
        SubsequenceUniqueIds(a, b');
      }
    }
  }
}
