/** The per-store freight rule shared by the cart (`cartRoutes.js`) and the
    checkout (`orderCreationRoutes.js`): a product's shipping options are
    searched for a rule for the buyer's district (only when the store is in the
    buyer's city), then for a city-wide rule, and the 5.00 fallback applies
    when neither exists, when the options cannot be parsed, or when the buyer
    has no city. */
module Shipping {
  import opened Base

  const DeliveryFee: real := 5.0

  /** One entry of a product's `shipping_options`; a `NULL` or `''` district is `None`. */
  datatype ShippingOption = ShippingOption(cityId: int, districtId: Option<int>, cost: real)

  /** The `shipping_options` column: absent (`NULL` or `''`), not valid JSON, or parsed. */
  datatype ShippingField = NoOptions | Unparsable | Options(options: seq<ShippingOption>)

  /** A rule for the buyer's own district. */
  predicate DistrictRule(o: ShippingOption, buyerCity: int, buyerDistrict: int) {
    o.cityId == buyerCity && o.districtId == Some(buyerDistrict)
  }

  /** A rule for the whole of the buyer's city. */
  predicate CityRule(o: ShippingOption, buyerCity: int) {
    o.cityId == buyerCity && o.districtId.None?
  }

  /** Whether the district search runs: the store is in the buyer's city and the buyer gave a district. */
  predicate SearchesDistrict(storeCity: int, buyerCity: int, buyerDistrict: Option<int>) {
    storeCity == buyerCity && buyerDistrict.Some?
  }

  /** `options.find(opt => opt.city_id == city && opt.district_id == district)`, as an index. */
  function FindDistrictRule(options: seq<ShippingOption>, buyerCity: int, buyerDistrict: int): (i: nat)
    ensures i <= |options| && (i < |options| ==> DistrictRule(options[i], buyerCity, buyerDistrict))
    ensures forall k :: 0 <= k < i ==> !DistrictRule(options[k], buyerCity, buyerDistrict)
  {
    if options == [] || DistrictRule(options[0], buyerCity, buyerDistrict) then 0
    else 1 + FindDistrictRule(options[1..], buyerCity, buyerDistrict)
  }

  /** `options.find(opt => opt.city_id == city && (opt.district_id === null || opt.district_id === ''))`, as an index. */
  function FindCityRule(options: seq<ShippingOption>, buyerCity: int): (i: nat)
    ensures i <= |options| && (i < |options| ==> CityRule(options[i], buyerCity))
    ensures forall k :: 0 <= k < i ==> !CityRule(options[k], buyerCity)
  {
    if options == [] || CityRule(options[0], buyerCity) then 0
    else 1 + FindCityRule(options[1..], buyerCity)
  }

  /** The option whose cost applies, by position: the first district rule when
      the district search runs and finds one, otherwise the first city-wide rule. */
  function ChosenOption(options: seq<ShippingOption>, storeCity: int, buyerCity: int, buyerDistrict: Option<int>): (c: Option<nat>)
    ensures c.Some? ==> c.value < |options| && options[c.value].cityId == buyerCity
    ensures SearchesDistrict(storeCity, buyerCity, buyerDistrict)
            && (exists i :: 0 <= i < |options| && DistrictRule(options[i], buyerCity, buyerDistrict.value)) ==>
              c.Some? && DistrictRule(options[c.value], buyerCity, buyerDistrict.value)
              && forall k :: 0 <= k < c.value ==> !DistrictRule(options[k], buyerCity, buyerDistrict.value)
    ensures !(SearchesDistrict(storeCity, buyerCity, buyerDistrict)
              && (exists i :: 0 <= i < |options| && DistrictRule(options[i], buyerCity, buyerDistrict.value))) ==>
              (c.Some? <==> exists i :: 0 <= i < |options| && CityRule(options[i], buyerCity))
              && (c.Some? ==> CityRule(options[c.value], buyerCity)
                              && forall k :: 0 <= k < c.value ==> !CityRule(options[k], buyerCity))
  {
    var d := if SearchesDistrict(storeCity, buyerCity, buyerDistrict)
             then FindDistrictRule(options, buyerCity, buyerDistrict.value) else |options|;
    if d < |options| then Some(d)
    else
      var c := FindCityRule(options, buyerCity);
      if c < |options| then Some(c) else None
  }

  /** The freight a store is charged, decided from the shipping options of one
      of its products: the cost of the chosen rule, else the fallback. */
  function Freight(shipping: ShippingField, storeCity: int, buyerCity: Option<int>, buyerDistrict: Option<int>): (r: real)
    ensures !shipping.Options? || buyerCity.None? ==> r == DeliveryFee
    ensures shipping.Options? && buyerCity.Some? ==>
      var c := ChosenOption(shipping.options, storeCity, buyerCity.value, buyerDistrict);
      r == (if c.Some? then shipping.options[c.value].cost else DeliveryFee)
  {
    if shipping.Options? && buyerCity.Some? then
      match ChosenOption(shipping.options, storeCity, buyerCity.value, buyerDistrict)
      case Some(i) => shipping.options[i].cost
      case None => DeliveryFee
    else DeliveryFee
  }

  /** The freight is the fallback or the cost of a rule for the buyer's city. */
  lemma FreightFromBuyerCity(shipping: ShippingField, storeCity: int, buyerCity: Option<int>, buyerDistrict: Option<int>)
    ensures var r := Freight(shipping, storeCity, buyerCity, buyerDistrict);
      r == DeliveryFee
      || (shipping.Options? && buyerCity.Some?
          && exists i :: 0 <= i < |shipping.options| && shipping.options[i].cityId == buyerCity.value
                         && r == shipping.options[i].cost)
  {
    if shipping.Options? && buyerCity.Some? {
      var c := ChosenOption(shipping.options, storeCity, buyerCity.value, buyerDistrict);
      if c.Some? {
        assert shipping.options[c.value].cityId == buyerCity.value;
      }
    }
  }

  /** A rule for the buyer's district wins over a city-wide rule listed before
      it, when the store is in the buyer's city. */
  lemma DistrictRuleBeatsCityRule(city: ShippingOption, district: ShippingOption, rest: seq<ShippingOption>, buyerCity: int, buyerDistrict: int)
    requires CityRule(city, buyerCity) && DistrictRule(district, buyerCity, buyerDistrict)
    ensures Freight(Options([city, district] + rest), buyerCity, Some(buyerCity), Some(buyerDistrict)) == district.cost
  {
    var options := [city, district] + rest;
    assert options[1] == district;
    assert FindDistrictRule(options, buyerCity, buyerDistrict) == 1 by {
      assert !DistrictRule(options[0], buyerCity, buyerDistrict);
      assert options[1..][0] == district;
    }
  }

  /** Away from the buyer's city the district rule is skipped: the city-wide
      rule listed first sets the freight. */
  lemma CityRuleAway(city: ShippingOption, district: ShippingOption, rest: seq<ShippingOption>, storeCity: int, buyerCity: int, buyerDistrict: int)
    requires storeCity != buyerCity
    requires CityRule(city, buyerCity) && DistrictRule(district, buyerCity, buyerDistrict)
    ensures Freight(Options([city, district] + rest), storeCity, Some(buyerCity), Some(buyerDistrict)) == city.cost
  {
    var options := [city, district] + rest;
    assert FindCityRule(options, buyerCity) == 0;
  }

  /** A district rule never applies to a store outside the buyer's city. */
  lemma NoDistrictRuleAway(options: seq<ShippingOption>, storeCity: int, buyerCity: int, buyerDistrict: Option<int>)
    requires storeCity != buyerCity
    ensures var c := ChosenOption(options, storeCity, buyerCity, buyerDistrict);
      c.Some? <==> exists i :: 0 <= i < |options| && CityRule(options[i], buyerCity)
  {
  }
}
