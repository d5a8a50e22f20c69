/** `modify_free_shipping_label`: a rate that costs nothing is marked
    "GRÁTIS" in the label shown in the cart. */
module ShippingLabel {

  /** The marker appended to the label, markup included. */
  const FreeSuffix: string := ": <strong><span style=\"color: #50b848;\">GRÁTIS</span></strong>"

  /** `text` is the label; `adminNonAjax` stands for `is_admin() && !defined('DOING_AJAX')`;
      `cost` is the rate's cost in cents, an empty cost being 0. */
  function ModifyFreeShippingLabel(text: string, cost: int, adminNonAjax: bool): (r: string)
    ensures |r| >= |text| && r[..|text|] == text
    ensures r == text <==> adminNonAjax || cost > 0
    ensures r != text ==> r[|text|..] == FreeSuffix
  {
    if adminNonAjax then text
    else if !(cost > 0) then text + FreeSuffix
    else text
  }
}
