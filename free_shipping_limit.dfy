/** `validate_espumas_limit` and `is_free_shipping_chosen`: while free
    shipping is the chosen method, the products of one category may not
    add up to more than a ceiling; going over adds one error notice. */
module FreeShippingLimit {
  import opened Cart
  import opened PhpText
  import Money

  // Is free shipping chosen?

  /** Some chosen method id contains `free_shipping`. `chosen` is the
      session's `chosen_shipping_methods`, None when it is not an array. */
  ghost predicate FreeShippingChosen(chosen: Option<seq<string>>) {
    chosen.Some? && exists i, k :: 0 <= i < |chosen.value| && OccursAt(chosen.value[i], "free_shipping", k)
  }

  /** The early-return scan of the chosen method ids. */
  method IsFreeShippingChosen(chosen: Option<seq<string>>) returns (b: bool)
    ensures b <==> FreeShippingChosen(chosen)
  {
    if chosen.None? {
      return false;
    }
    var methods := chosen.value;
    for i := 0 to |methods|
      invariant forall j :: 0 <= j < i ==> !Contains(methods[j], "free_shipping")
    {
      if Contains(methods[i], "free_shipping") {
        ContainsIff(methods[i], "free_shipping");
        return true;
      }
    }
    forall i, k | 0 <= i < |methods| && OccursAt(methods[i], "free_shipping", k)
      ensures false
    {
      ContainsIff(methods[i], "free_shipping");
    }
    return false;
  }

  // The category total

  /** Cart line `item` holds a product of category `category`. */
  predicate InCategory(item: CartItem, category: string) {
    item.data.Some? && category in item.data.value.categories
  }

  /** Sum of `line_total` over the lines whose product is in `category`. */
  function CategoryTotal(items: seq<CartItem>, category: string): int
    decreases |items|
  {
    if items == [] then 0
    else
      var last := items[|items| - 1];
      CategoryTotal(items[..|items| - 1], category) + (if InCategory(last, category) then last.lineTotal else 0)
  }

  /** The total of a cart is the total of its parts. */
  lemma {:induction false} CategoryTotalAppend(a: seq<CartItem>, b: seq<CartItem>, category: string)
    ensures CategoryTotal(a + b, category) == CategoryTotal(a, category) + CategoryTotal(b, category)
    decreases |b|
  {
    if b == [] {
      assert a + b == a;
    } else {
      var b' := b[..|b| - 1];
      assert (a + b)[..|a + b| - 1] == a + b';
      CategoryTotalAppend(a, b', category);
    }
  }

  /** With non-negative line totals the sum is non-negative, and it is zero
      when no line is in the category. */
  lemma {:induction false} CategoryTotalBounds(items: seq<CartItem>, category: string)
    requires forall i :: 0 <= i < |items| ==> items[i].lineTotal >= 0
    ensures 0 <= CategoryTotal(items, category)
    ensures (forall i :: 0 <= i < |items| ==> !InCategory(items[i], category)) ==> CategoryTotal(items, category) == 0
    decreases |items|
  {
    if items != [] {
      CategoryTotalBounds(items[..|items| - 1], category);
    }
  }

  // The notice

  datatype NoticeType = Error | Success | Info

  /** A `wc_add_notice` call: the message and its type. */
  datatype Notice = Notice(kind: NoticeType, message: string)

  /** The category name shown in the message. */
  const CategoryName: string := "Espumas e Enchimentos"

  /** The fixed text around the two amounts of the message. */
  const MessageHead: string := "Para utilizar o frete grátis, o valor dos produtos da categoria \""
                               + CategoryName + "\" não pode ultrapassar R$ "
  const MessageMiddle: string := ". Atualmente: R$ "
  const MessageEnd: string := "."

  /** Both inserted parts of `head + x + middle + y + tail` occur in it. */
  lemma {:induction false} TemplateOccurrences(head: string, x: string, middle: string, y: string, tail: string)
    ensures OccursAt(head + x + middle + y + tail, x, |head|)
    ensures OccursAt(head + x + middle + y + tail, y, |head| + |x| + |middle|)
  {
    var m := head + x + middle + y + tail;
    assert m[|head|..|head| + |x|] == x;
    assert m[|head| + |x| + |middle|..|head| + |x| + |middle| + |y|] == y;
  }

  /** The message with the ceiling and the current total, both formatted by
      `number_format(..., 2, ',', '.')`. */
  function LimitMessage(limit: int, total: int): (m: string)
    ensures exists i :: OccursAt(m, Money.Format(limit), i)
    ensures exists i :: OccursAt(m, Money.Format(total), i)
  {
    var shownLimit, shownTotal := Money.Format(limit), Money.Format(total);
    TemplateOccurrences(MessageHead, shownLimit, MessageMiddle, shownTotal, MessageEnd);
    MessageHead + shownLimit + MessageMiddle + shownTotal + MessageEnd
  }

  /** The hook body. `adminNonAjax` stands for `is_admin() && !defined('DOING_AJAX')`;
      the returned list is what the call adds with `wc_add_notice`. */
  method ValidateCategoryLimit(adminNonAjax: bool, chosen: Option<seq<string>>, items: seq<CartItem>,
                               category: string, limit: int) returns (notices: seq<Notice>)
    ensures |notices| <= 1
    ensures notices != [] <==>
      !adminNonAjax && FreeShippingChosen(chosen) && CategoryTotal(items, category) > limit
    ensures notices != [] ==> notices[0] == Notice(Error, LimitMessage(limit, CategoryTotal(items, category)))
  {
    notices := [];
    if adminNonAjax {
      return;
    }
    var freeShipping := IsFreeShippingChosen(chosen);
    if !freeShipping {
      return;
    }
    var total := 0;
    for i := 0 to |items|
      invariant total == CategoryTotal(items[..i], category)
    {
      assert items[..i + 1][..i] == items[..i];
      var item := items[i];
      if item.data.None? {
        continue;
      }
      if category in item.data.value.categories {
        total := total + item.lineTotal;
      }
    }
    assert items[..|items|] == items;
    if total > limit {
      notices := [Notice(Error, LimitMessage(limit, total))];
    }
  }
}
