/** `filter_package_rates_by_priority`: when a package mixes two or more
    shipping classes, only the rates that belong to the highest-priority
    class present are offered; if none would be left, every rate is. */
module PriorityFilter {
  import opened Cart
  import opened PhpText

  // Step 1: the shipping classes present in the cart

  /** Cart line `item` carries the (non-empty) shipping class `c`. */
  predicate Carries(item: CartItem, c: string) {
    item.data.Some? && item.data.value.shippingClass == c && Truthy(c)
  }

  /** The position of the first line carrying `c`, or `|items|` if none does. */
  function FirstCarrier(items: seq<CartItem>, c: string): (k: nat)
    ensures k <= |items|
    ensures k < |items| ==> Carries(items[k], c)
    ensures forall j :: 0 <= j < k ==> !Carries(items[j], c)
    decreases |items|
  {
    if items == [] then 0
    else if Carries(items[0], c) then 0
    else 1 + FirstCarrier(items[1..], c)
  }

  /** The classes of the cart, each once, in order of first appearance;
      lines without a product object or with an empty class are skipped. */
  function CartClasses(items: seq<CartItem>): seq<string>
    decreases |items|
  {
    if items == [] then []
    else
      var seen := CartClasses(items[..|items| - 1]);
      var last := items[|items| - 1];
      if last.data.Some? && Truthy(last.data.value.shippingClass) && last.data.value.shippingClass !in seen
      then seen + [last.data.value.shippingClass]
      else seen
  }

  lemma {:induction false} FirstCarrierAppend(items: seq<CartItem>, x: CartItem, c: string)
    ensures FirstCarrier(items + [x], c) ==
      if FirstCarrier(items, c) < |items| then FirstCarrier(items, c)
      else if Carries(x, c) then |items|
      else |items| + 1
  {
    var all := items + [x];
    var k, k0 := FirstCarrier(all, c), FirstCarrier(items, c);
    assert forall j :: 0 <= j < |items| ==> all[j] == items[j];
    if k0 < |items| {
      assert Carries(all[k0], c);
    } else if Carries(x, c) {
      assert Carries(all[|items|], c);
    }
  }

  /** The extracted classes are non-empty and pairwise distinct. */
  lemma {:induction false} CartClassesDistinct(items: seq<CartItem>)
    ensures forall i :: 0 <= i < |CartClasses(items)| ==> Truthy(CartClasses(items)[i])
    ensures forall i, j :: 0 <= i < j < |CartClasses(items)| ==> CartClasses(items)[i] != CartClasses(items)[j]
    decreases |items|
  {
    if items != [] {
      CartClassesDistinct(items[..|items| - 1]);
    }
  }

  /** The extracted classes are exactly the classes some line carries. */
  lemma {:induction false} CartClassesMembers(items: seq<CartItem>)
    ensures forall c :: c in CartClasses(items) <==> exists k :: 0 <= k < |items| && Carries(items[k], c)
    decreases |items|
  {
    if items != [] {
      var prev := items[..|items| - 1];
      CartClassesMembers(prev);
      var seen, r := CartClasses(prev), CartClasses(items);
      forall c
        ensures c in r <==> exists k :: 0 <= k < |items| && Carries(items[k], c)
      {
        if c in r && c !in seen {
          assert Carries(items[|items| - 1], c);
        }
        if k :| 0 <= k < |items| && Carries(items[k], c) {
          if k < |prev| {
            assert Carries(prev[k], c);
          }
        }
        if c in seen {
          var k :| 0 <= k < |prev| && Carries(prev[k], c);
          assert items[k] == prev[k];
        }
      }
    }
  }

  /** The extracted classes are ordered by the line where each first appears. */
  lemma {:induction false} CartClassesOrder(items: seq<CartItem>)
    ensures forall i, j :: 0 <= i < j < |CartClasses(items)| ==>
      FirstCarrier(items, CartClasses(items)[i]) < FirstCarrier(items, CartClasses(items)[j])
    decreases |items|
  {
    if items != [] {
      var prev, x := items[..|items| - 1], items[|items| - 1];
      assert items == prev + [x];
      CartClassesOrder(prev);
      CartClassesMembers(prev);
      var seen, r := CartClasses(prev), CartClasses(items);
      forall c | c in seen
        ensures FirstCarrier(prev, c) < |prev|
        ensures FirstCarrier(items, c) == FirstCarrier(prev, c)
      {
        var k :| 0 <= k < |prev| && Carries(prev[k], c);
        FirstCarrierAppend(prev, x, c);
      }
      if r != seen {
        var c := x.data.value.shippingClass;
        assert r == seen + [c];
        FirstCarrierAppend(prev, x, c);
      }
    }
  }

  /** The loop that collects `$classes_no_carrinho`. */
  method ExtractCartClasses(items: seq<CartItem>) returns (classes: seq<string>)
    ensures classes == CartClasses(items)
  {
    classes := [];
    for i := 0 to |items|
      invariant classes == CartClasses(items[..i])
    {
      assert items[..i + 1][..i] == items[..i];
      var item := items[i];
      if item.data.None? {
        continue;
      }
      var shippingClass := item.data.value.shippingClass;
      if Truthy(shippingClass) && shippingClass !in classes {
        classes := classes + [shippingClass];
      }
    }
    assert items[..|items|] == items;
  }

  // Step 2: the priority class

  /** The earliest entry of `priorities` that is among `classes`, if any. */
  function FirstPresent(priorities: seq<string>, classes: seq<string>): (r: Option<string>)
    ensures r.None? <==> forall i :: 0 <= i < |priorities| ==> priorities[i] !in classes
    ensures r.Some? ==> r.value in classes
    ensures r.Some? ==> exists k :: (0 <= k < |priorities| && priorities[k] == r.value
                                     && forall i :: 0 <= i < k ==> priorities[i] !in classes)
    decreases |priorities|
  {
    if priorities == [] then None
    else if priorities[0] in classes then Some(priorities[0])
    else
      var r := FirstPresent(priorities[1..], classes);
      assert forall i :: 1 <= i < |priorities| ==> priorities[i] == priorities[1..][i - 1];
      assert r.Some? ==> exists k :: (1 <= k < |priorities| && priorities[k] == r.value
                                      && forall i :: 0 <= i < k ==> priorities[i] !in classes);
      r
  }

  /** The `break`-terminated search for `$classe_prioritaria`. */
  method SelectPriorityClass(priorities: seq<string>, classes: seq<string>) returns (chosen: Option<string>)
    ensures chosen == FirstPresent(priorities, classes)
  {
    chosen := None;
    var i := 0;
    while i < |priorities|
      invariant 0 <= i <= |priorities|
      invariant FirstPresent(priorities[i..], classes) == FirstPresent(priorities, classes)
    {
      if priorities[i] in classes {
        chosen := Some(priorities[i]);
        break;
      }
      assert priorities[i..][1..] == priorities[i + 1..];
      i := i + 1;
    }
  }

  // Step 3: the zone methods by instance, and which rates to keep

  /** `$metodos_por_instance`: zone methods keyed by instance id; a later
      method with the same id replaces an earlier one. */
  function InstanceIndex(methods: seq<ZoneMethod>): map<int, ZoneMethod>
    decreases |methods|
  {
    if methods == [] then map[]
    else
      var index := InstanceIndex(methods[..|methods| - 1]);
      var last := methods[|methods| - 1];
      if last.instanceId.Some? then index[last.instanceId.value := last] else index
  }

  /** The index holds exactly the instance ids present, each mapped to the
      last method that has it. */
  lemma {:induction false} InstanceIndexSpec(methods: seq<ZoneMethod>)
    ensures forall id :: id in InstanceIndex(methods) <==>
      exists k :: 0 <= k < |methods| && methods[k].instanceId == Some(id)
    ensures forall id :: id in InstanceIndex(methods) ==>
      exists k :: (0 <= k < |methods| && methods[k] == InstanceIndex(methods)[id]
                   && methods[k].instanceId == Some(id)
                   && forall j :: k < j < |methods| ==> methods[j].instanceId != Some(id))
    decreases |methods|
  {
    if methods != [] {
      var prev, last := methods[..|methods| - 1], methods[|methods| - 1];
      InstanceIndexSpec(prev);
      assert forall k :: 0 <= k < |prev| ==> methods[k] == prev[k];
      var index := InstanceIndex(methods);
      forall id | id in index
        ensures exists k :: (0 <= k < |methods| && methods[k] == index[id]
                             && methods[k].instanceId == Some(id)
                             && forall j :: k < j < |methods| ==> methods[j].instanceId != Some(id))
      {
        if last.instanceId == Some(id) {
          assert methods[|methods| - 1] == index[id];
        } else {
          var k :| 0 <= k < |prev| && prev[k] == InstanceIndex(prev)[id]
            && prev[k].instanceId == Some(id)
            && forall j :: k < j < |prev| ==> prev[j].instanceId != Some(id);
          assert methods[k] == index[id];
        }
      }
    }
  }

  /** The loop that builds `$metodos_por_instance`. */
  method IndexZoneMethods(methods: seq<ZoneMethod>) returns (index: map<int, ZoneMethod>)
    ensures index == InstanceIndex(methods)
  {
    index := map[];
    for i := 0 to |methods|
      invariant index == InstanceIndex(methods[..i])
    {
      assert methods[..i + 1][..i] == methods[..i];
      if methods[i].instanceId.Some? {
        index := index[methods[i].instanceId.value := methods[i]];
      }
    }
    assert methods[..|methods|] == methods;
  }

  /** The class a free-shipping instance is restricted to: "" when the
      instance is not in the zone or its method has no `get_option`. */
  function ConfiguredClass(index: map<int, ZoneMethod>, instanceId: int): string {
    if instanceId in index && index[instanceId].freeShippingClass.Some?
    then index[instanceId].freeShippingClass.value
    else ""
  }

  /** Whether a rate survives the filter for class `priority`. */
  predicate KeepRate(entry: RateEntry, priority: string, index: map<int, ZoneMethod>) {
    if entry.rate.methodId == "free_shipping" then
      var configured := ConfiguredClass(index, entry.rate.instanceId);
      !Truthy(configured) || configured == priority
    else
      Contains(entry.id, priority) || Contains(ToLower(entry.rate.labelText), ToLower(priority))
  }

  /** Zone method `m` does not restrict free shipping to a class other than
      `priority`: it has no `get_option`, or its option is falsy or `priority`. */
  predicate UnrestrictedOrFor(m: ZoneMethod, priority: string) {
    m.freeShippingClass.None? || !Truthy(m.freeShippingClass.value) || m.freeShippingClass.value == priority
  }

  /** A free-shipping rate stays when its instance is unrestricted (also when
      the instance is unknown) or restricted to the priority class; any other
      rate stays when the class slug occurs in its id, or occurs in its label
      ignoring ASCII case. */
  lemma KeepRateSpec(entry: RateEntry, priority: string, methods: seq<ZoneMethod>)
    ensures var id := entry.rate.instanceId;
      entry.rate.methodId == "free_shipping" && (forall k :: 0 <= k < |methods| ==> methods[k].instanceId != Some(id))
      ==> KeepRate(entry, priority, InstanceIndex(methods))
    ensures var id := entry.rate.instanceId;
      entry.rate.methodId == "free_shipping" ==>
        (KeepRate(entry, priority, InstanceIndex(methods)) <==>
          (forall k :: 0 <= k < |methods| ==> methods[k].instanceId != Some(id))
          || exists k :: (0 <= k < |methods| && methods[k].instanceId == Some(id)
                          && (forall j :: k < j < |methods| ==> methods[j].instanceId != Some(id))
                          && UnrestrictedOrFor(methods[k], priority)))
    ensures entry.rate.methodId != "free_shipping" ==>
      (KeepRate(entry, priority, InstanceIndex(methods)) <==>
        (exists i :: OccursAt(entry.id, priority, i))
        || (exists i :: OccursAt(ToLower(entry.rate.labelText), ToLower(priority), i)))
  {
    InstanceIndexSpec(methods);
    var id, index := entry.rate.instanceId, InstanceIndex(methods);
    if entry.rate.methodId == "free_shipping" && id in index {
      var k0 :| 0 <= k0 < |methods| && methods[k0] == index[id] && methods[k0].instanceId == Some(id)
        && forall j :: k0 < j < |methods| ==> methods[j].instanceId != Some(id);
      forall k | 0 <= k < |methods| && methods[k].instanceId == Some(id)
                 && (forall j :: k < j < |methods| ==> methods[j].instanceId != Some(id))
        ensures methods[k] == index[id]
      {
        assert k == k0;
      }
    }
    ContainsIff(entry.id, priority);
    ContainsIff(ToLower(entry.rate.labelText), ToLower(priority));
  }

  /** `$filtered`: the rates kept, in their original order. */
  function Kept(rates: Rates, priority: string, index: map<int, ZoneMethod>): Rates
    decreases |rates|
  {
    if rates == [] then []
    else
      var kept := Kept(rates[..|rates| - 1], priority, index);
      if KeepRate(rates[|rates| - 1], priority, index) then kept + [rates[|rates| - 1]] else kept
  }

  /** The kept rates are an order-preserving selection of the input. */
  lemma {:induction false} KeptOrder(rates: Rates, priority: string, index: map<int, ZoneMethod>)
    ensures IsSubsequence(Kept(rates, priority, index), rates)
    decreases |rates|
  {
    if rates != [] {
      var prev, last := rates[..|rates| - 1], rates[|rates| - 1];
      KeptOrder(prev, priority, index);
      var kept := Kept(prev, priority, index);
      if KeepRate(last, priority, index) {
        var a := kept + [last];
        assert Kept(rates, priority, index) == a;
        assert a[..|a| - 1] == kept && a[|a| - 1] == last;
        assert IsSubsequence(a, rates);
      } else {
        assert Kept(rates, priority, index) == kept;
        assert IsSubsequence(kept, rates);
      }
    }
  }

  /** The kept rates are exactly the entries (same key, same rate) that
      pass `KeepRate`; there are none exactly when no entry passes. */
  lemma {:induction false} KeptMembers(rates: Rates, priority: string, index: map<int, ZoneMethod>)
    ensures forall e :: e in Kept(rates, priority, index) <==> e in rates && KeepRate(e, priority, index)
    ensures Kept(rates, priority, index) == [] <==> forall e :: e in rates ==> !KeepRate(e, priority, index)
    decreases |rates|
  {
    if rates != [] {
      var prev, last := rates[..|rates| - 1], rates[|rates| - 1];
      assert rates == prev + [last];
      KeptMembers(prev, priority, index);
    }
  }

  /** Filtering what was already filtered changes nothing. */
  lemma {:induction false} KeptIdempotent(rates: Rates, priority: string, index: map<int, ZoneMethod>)
    ensures Kept(Kept(rates, priority, index), priority, index) == Kept(rates, priority, index)
    decreases |rates|
  {
    if rates != [] {
      var prev, last := rates[..|rates| - 1], rates[|rates| - 1];
      KeptIdempotent(prev, priority, index);
      var kept := Kept(prev, priority, index);
      if KeepRate(last, priority, index) {
        assert (kept + [last])[..|kept|] == kept;
      }
    }
  }

  /** The loop that builds `$filtered` key by key. */
  method FilterRates(rates: Rates, priority: string, index: map<int, ZoneMethod>) returns (filtered: Rates)
    ensures filtered == Kept(rates, priority, index)
  {
    filtered := [];
    for i := 0 to |rates|
      invariant filtered == Kept(rates[..i], priority, index)
    {
      assert rates[..i + 1][..i] == rates[..i];
      if KeepRate(rates[i], priority, index) {
        filtered := filtered + [rates[i]];
      }
    }
    assert rates[..|rates|] == rates;
  }

  // The whole filter

  /** What `filter_package_rates_by_priority` returns for a package. */
  function FilterByPriority(rates: Rates, items: seq<CartItem>, priorities: seq<string>,
                            zoneMethods: seq<ZoneMethod>): Rates
  {
    var classes := CartClasses(items);
    if |classes| <= 1 then rates
    else match FirstPresent(priorities, classes)
      case None => rates
      case Some(priority) =>
        var filtered := Kept(rates, priority, InstanceIndex(zoneMethods));
        if filtered != [] then filtered else rates
  }

  /** The hook body: collect the classes, pick the priority class, index the
      zone methods, filter, and fall back to the input when nothing is left. */
  method FilterPackageRatesByPriority(rates: Rates, items: seq<CartItem>, priorities: seq<string>,
                                      zoneMethods: seq<ZoneMethod>) returns (result: Rates)
    ensures result == FilterByPriority(rates, items, priorities, zoneMethods)
  {
    var classes := ExtractCartClasses(items);
    if |classes| <= 1 {
      return rates;
    }
    var chosen := SelectPriorityClass(priorities, classes);
    CartClassesDistinct(items);
    if chosen.None? || !Truthy(chosen.value) {
      return rates;
    }
    var priority := chosen.value;
    var index := IndexZoneMethods(zoneMethods);
    var filtered := FilterRates(rates, priority, index);
    if filtered != [] {
      return filtered;
    }
    return rates;
  }

  /** The pass-through cases, the fail-open fallback, and the shape of the
      result: the input itself, or a non-empty order-preserving selection of
      it with its keys still unique. */
  lemma FilterByPriorityLaws(rates: Rates, items: seq<CartItem>, priorities: seq<string>,
                             zoneMethods: seq<ZoneMethod>)
    ensures var r := FilterByPriority(rates, items, priorities, zoneMethods);
      && (|CartClasses(items)| <= 1 ==> r == rates)
      && ((forall i :: 0 <= i < |priorities| ==> priorities[i] !in CartClasses(items)) ==> r == rates)
      && (r == rates || (r != [] && IsSubsequence(r, rates)))
      && (rates != [] ==> r != [])
      && (UniqueIds(rates) ==> UniqueIds(r))
  {
    var classes := CartClasses(items);
    if |classes| > 1 && FirstPresent(priorities, classes).Some? {
      var priority := FirstPresent(priorities, classes).value;
      var filtered := Kept(rates, priority, InstanceIndex(zoneMethods));
      KeptOrder(rates, priority, InstanceIndex(zoneMethods));
      KeptMembers(rates, priority, InstanceIndex(zoneMethods));
      if filtered != [] && UniqueIds(rates) {
        SubsequenceUniqueIds(filtered, rates);
      }
    }
  }

  /** When the filter applies with priority class `priority`: if some rate
      passes, exactly the passing rates are returned; if none passes, the
      input is returned unchanged. */
  lemma FilterByPriorityDecision(rates: Rates, items: seq<CartItem>, priorities: seq<string>,
                                 zoneMethods: seq<ZoneMethod>, priority: string)
    requires |CartClasses(items)| >= 2
    requires FirstPresent(priorities, CartClasses(items)) == Some(priority)
    ensures var r := FilterByPriority(rates, items, priorities, zoneMethods);
      var index := InstanceIndex(zoneMethods);
      && ((exists e :: e in rates && KeepRate(e, priority, index)) ==>
            forall e :: e in r <==> e in rates && KeepRate(e, priority, index))
      && ((forall e :: e in rates ==> !KeepRate(e, priority, index)) ==> r == rates)
  {
    var index := InstanceIndex(zoneMethods);
    KeptMembers(rates, priority, index);
    if e :| e in rates && KeepRate(e, priority, index) {
      assert e in Kept(rates, priority, index);
    }
  }

  /** Running the filter again on its own output gives the same rates. */
  lemma FilterByPriorityIdempotent(rates: Rates, items: seq<CartItem>, priorities: seq<string>,
                                   zoneMethods: seq<ZoneMethod>)
    ensures var once := FilterByPriority(rates, items, priorities, zoneMethods);
      FilterByPriority(once, items, priorities, zoneMethods) == once
  {
    var classes := CartClasses(items);
    if |classes| > 1 && FirstPresent(priorities, classes).Some? {
      var priority := FirstPresent(priorities, classes).value;
      KeptIdempotent(rates, priority, InstanceIndex(zoneMethods));
    }
  }

  /** A cart holding both default classes: the free-shipping rate bound to
      the higher-priority class and the unbound one stay, the one bound to
      the other class goes. */
  lemma MixedCartExample()
    ensures var foam := CartItem(Some(Product("espumas-e-enchimentos", {})), 10000);
      var plain := CartItem(Some(Product("brasil", {})), 5000);
      var foamRate := RateEntry("free_shipping:1", Rate("free_shipping", 1, "Frete grátis", 0));
      var plainRate := RateEntry("free_shipping:2", Rate("free_shipping", 2, "Frete grátis", 0));
      var anyRate := RateEntry("free_shipping:3", Rate("free_shipping", 3, "Frete grátis", 0));
      var zone := [ZoneMethod(Some(1), Some("espumas-e-enchimentos")), ZoneMethod(Some(2), Some("brasil")),
                   ZoneMethod(Some(3), Some(""))];
      FilterByPriority([foamRate, plainRate, anyRate], [foam, plain], ["espumas-e-enchimentos", "brasil"], zone)
        == [foamRate, anyRate]
  {
    var foam := CartItem(Some(Product("espumas-e-enchimentos", {})), 10000);
    var plain := CartItem(Some(Product("brasil", {})), 5000);
    assert [foam, plain][..1] == [foam];
    assert CartClasses([foam]) == ["espumas-e-enchimentos"];
    assert CartClasses([foam, plain]) == ["espumas-e-enchimentos", "brasil"];
    var zone := [ZoneMethod(Some(1), Some("espumas-e-enchimentos")), ZoneMethod(Some(2), Some("brasil")),
                 ZoneMethod(Some(3), Some(""))];
    assert zone[..2][..1] == zone[..1] && zone[..1][..0] == [];
    assert InstanceIndex(zone[..1]) == map[1 := zone[0]];
    assert InstanceIndex(zone[..2]) == map[1 := zone[0], 2 := zone[1]];
    var index := InstanceIndex(zone);
    assert index == map[1 := zone[0], 2 := zone[1], 3 := zone[2]];
    assert ConfiguredClass(index, 1) == "espumas-e-enchimentos";
    assert ConfiguredClass(index, 2) == "brasil";
    assert ConfiguredClass(index, 3) == "";
    var foamRate := RateEntry("free_shipping:1", Rate("free_shipping", 1, "Frete grátis", 0));
    var plainRate := RateEntry("free_shipping:2", Rate("free_shipping", 2, "Frete grátis", 0));
    var anyRate := RateEntry("free_shipping:3", Rate("free_shipping", 3, "Frete grátis", 0));
    var rates := [foamRate, plainRate, anyRate];
    assert rates[..2][..1] == rates[..1] && rates[..1][..0] == [];
    assert KeepRate(foamRate, "espumas-e-enchimentos", index);
    assert !KeepRate(plainRate, "espumas-e-enchimentos", index);
    assert KeepRate(anyRate, "espumas-e-enchimentos", index);
    assert Kept(rates[..1], "espumas-e-enchimentos", index) == [foamRate];
    assert Kept(rates[..2], "espumas-e-enchimentos", index) == [foamRate];
    assert Kept(rates, "espumas-e-enchimentos", index) == [foamRate, anyRate];
  }
}
