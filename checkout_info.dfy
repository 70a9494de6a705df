/** The checkout snapshot (CheckoutInfo): how it is assembled from a
    checkout, its derived accessors, and the three operations that rewrite
    some of its fields in place. */
module CheckoutInfos {
  import opened Wrappers
  import opened Entities
  import opened DeliveryMethodInfos
  import opened LineLoader

  /** The value of every field of a CheckoutInfo at one moment; this is what
      the external collaborators receive. */
  datatype InfoState = InfoState(
    checkout: Checkout,
    user: Option<User>,
    channel: Channel,
    billingAddress: Option<Address>,
    shippingAddress: Option<Address>,
    shippingMethod: Option<ShippingMethod>,
    deliveryMethodInfo: DeliveryMethodInfo,
    validShippingMethods: seq<ShippingMethod>,
    validPickUpPoints: seq<Warehouse>,
    shippingMethodChannelListings: Option<ShippingMethodChannelListing>)

  /** The external capabilities the resolver calls: the pricing
      calculator's subtotal, the shipping-eligibility resolver and the
      stock-eligibility resolver. Each may answer anything. */
  datatype Collaborators = Collaborators(
    calculateCheckoutSubtotal:
      (InfoState, seq<CheckoutLineInfo>, Option<Address>, seq<DiscountInfo>) -> TaxedMoney,
    validShippingMethodsForCheckout:
      (InfoState, seq<CheckoutLineInfo>, TaxedMoney, Option<CountryCode>) -> Option<seq<ShippingMethod>>,
    validCollectionPointsForCheckout:
      seq<CheckoutLineInfo> -> Option<seq<Warehouse>>)

  /** Whether a stored listing is the one of `shippingMethod` in `channel`.
      A listing always belongs to some shipping method, so none matches an
      absent method. */
  predicate ListingMatches(listing: ShippingMethodChannelListing, shippingMethod: Option<ShippingMethod>, channel: Channel) {
    shippingMethod.Some? && listing.shippingMethodId == shippingMethod.value.id && listing.channelId == channel.id
  }

  /** The first listing in store order for the method and channel, if any. */
  function FirstShippingListing(store: seq<ShippingMethodChannelListing>, shippingMethod: Option<ShippingMethod>, channel: Channel)
    : (r: Option<ShippingMethodChannelListing>)
    ensures r.None? <==> forall i :: 0 <= i < |store| ==> !ListingMatches(store[i], shippingMethod, channel)
    ensures r.Some? ==>
      exists i :: 0 <= i < |store| && store[i] == r.value && ListingMatches(store[i], shippingMethod, channel)
        && forall k :: 0 <= k < i ==> !ListingMatches(store[k], shippingMethod, channel)
    ensures r.Some? ==>
      r.value.channelId == channel.id && shippingMethod.Some? && r.value.shippingMethodId == shippingMethod.value.id
  {
    if |store| == 0 then None
    else if ListingMatches(store[0], shippingMethod, channel) then Some(store[0])
    else
      var r := FirstShippingListing(store[1..], shippingMethod, channel);
      assert forall i :: 1 <= i < |store| ==> store[1..][i - 1] == store[i];
      r
  }

  /** `collection_point or shipping_method`: the collection point wins when set. */
  function ChosenDeliveryMethod(checkout: Checkout): (r: Option<DeliveryMethod>)
    ensures r.Some? ==> !r.value.OtherKind?
    ensures checkout.collectionPoint.Some? ==> r == Some(WarehouseChoice(checkout.collectionPoint.value))
    ensures checkout.collectionPoint.None? ==>
      (r.None? <==> checkout.shippingMethod.None?)
      && (r.Some? ==> r.value == ShippingMethodChoice(checkout.shippingMethod.value))
  {
    if checkout.collectionPoint.Some? then Some(WarehouseChoice(checkout.collectionPoint.value))
    else if checkout.shippingMethod.Some? then Some(ShippingMethodChoice(checkout.shippingMethod.value))
    else None
  }

  /** get_valid_shipping_method_list_for_checkout_info: the subtotal is priced
      against the snapshot's own shipping address, the eligibility resolver
      is asked with the country of the given address (none without one), and
      an absent answer becomes the empty list. */
  function ValidShippingMethodList(
    state: InfoState, shippingAddress: Option<Address>, lines: seq<CheckoutLineInfo>,
    discounts: seq<DiscountInfo>, env: Collaborators): (r: seq<ShippingMethod>)
    ensures var countryCode := if shippingAddress.Some? then Some(shippingAddress.value.country) else None;
      var subtotal := env.calculateCheckoutSubtotal(state, lines, state.shippingAddress, discounts);
      var offered := env.validShippingMethodsForCheckout(state, lines, subtotal, countryCode);
      && (offered.None? ==> r == [])
      && (offered.Some? ==> r == offered.value)
  {
    var countryCode := if shippingAddress.Some? then Some(shippingAddress.value.country) else None;
    var subtotal := env.calculateCheckoutSubtotal(state, lines, state.shippingAddress, discounts);
    match env.validShippingMethodsForCheckout(state, lines, subtotal, countryCode)
    case None => []
    case Some(methods) => methods
  }

  /** Two addresses in the same country give the same list: the address
      passed in is only read for its country. */
  lemma ValidShippingMethodListReadsOnlyCountry(
    state: InfoState, a: Address, b: Address, lines: seq<CheckoutLineInfo>,
    discounts: seq<DiscountInfo>, env: Collaborators)
    requires a.country == b.country
    ensures ValidShippingMethodList(state, Some(a), lines, discounts, env)
         == ValidShippingMethodList(state, Some(b), lines, discounts, env)
  {
  }

  /** get_valid_collection_points_for_checkout_info: the stock-eligibility
      resolver's answer, or the empty list when it has none. */
  function ValidCollectionPointList(lines: seq<CheckoutLineInfo>, env: Collaborators): (r: seq<Warehouse>)
    ensures env.validCollectionPointsForCheckout(lines).None? ==> r == []
    ensures env.validCollectionPointsForCheckout(lines).Some? ==> r == env.validCollectionPointsForCheckout(lines).value
  {
    match env.validCollectionPointsForCheckout(lines)
    case None => []
    case Some(points) => points
  }

  function ShippingChoices(methods: seq<ShippingMethod>): (r: seq<DeliveryMethod>)
    ensures |r| == |methods|
    ensures forall i :: 0 <= i < |methods| ==> r[i] == ShippingMethodChoice(methods[i])
  {
    if |methods| == 0 then [] else [ShippingMethodChoice(methods[0])] + ShippingChoices(methods[1..])
  }

  function WarehouseChoices(points: seq<Warehouse>): (r: seq<DeliveryMethod>)
    ensures |r| == |points|
    ensures forall i :: 0 <= i < |points| ==> r[i] == WarehouseChoice(points[i])
  {
    if |points| == 0 then [] else [WarehouseChoice(points[0])] + WarehouseChoices(points[1..])
  }

  class CheckoutInfo {
    var checkout: Checkout
    var user: Option<User>
    var channel: Channel
    var billingAddress: Option<Address>
    var shippingAddress: Option<Address>
    var shippingMethod: Option<ShippingMethod>
    var deliveryMethodInfo: DeliveryMethodInfo
    var validShippingMethods: seq<ShippingMethod>
    var validPickUpPoints: seq<Warehouse>
    var shippingMethodChannelListings: Option<ShippingMethodChannelListing>

    /** The snapshot's invariant: the delivery-method classification is one
        the classifier can produce, and a held shipping listing belongs to
        the snapshot's channel. */
    ghost predicate Valid()
      reads this
    {
      && deliveryMethodInfo.WellFormed()
      && (shippingMethodChannelListings.Some? ==> shippingMethodChannelListings.value.channelId == channel.id)
    }

    function State(): InfoState
      reads this
    {
      InfoState(
        checkout, user, channel, billingAddress, shippingAddress, shippingMethod,
        deliveryMethodInfo, validShippingMethods, validPickUpPoints, shippingMethodChannelListings)
    }

    constructor (
      checkout: Checkout, user: Option<User>, channel: Channel,
      billingAddress: Option<Address>, shippingAddress: Option<Address>,
      shippingMethod: Option<ShippingMethod>, deliveryMethodInfo: DeliveryMethodInfo,
      validShippingMethods: seq<ShippingMethod>, validPickUpPoints: seq<Warehouse>,
      shippingMethodChannelListings: Option<ShippingMethodChannelListing>)
      ensures State() == InfoState(
        checkout, user, channel, billingAddress, shippingAddress, shippingMethod,
        deliveryMethodInfo, validShippingMethods, validPickUpPoints, shippingMethodChannelListings)
    {
      this.checkout := checkout;
      this.user := user;
      this.channel := channel;
      this.billingAddress := billingAddress;
      this.shippingAddress := shippingAddress;
      this.shippingMethod := shippingMethod;
      this.deliveryMethodInfo := deliveryMethodInfo;
      this.validShippingMethods := validShippingMethods;
      this.validPickUpPoints := validPickUpPoints;
      this.shippingMethodChannelListings := shippingMethodChannelListings;
    }

    /** Every valid delivery method: the valid shipping methods, in order,
        followed by the valid pick-up points, in order. */
    function ValidDeliveryMethods(): (r: seq<DeliveryMethod>)
      reads this
      ensures |r| == |validShippingMethods| + |validPickUpPoints|
      ensures forall i :: 0 <= i < |validShippingMethods| ==> r[i] == ShippingMethodChoice(validShippingMethods[i])
      ensures forall j :: 0 <= j < |validPickUpPoints| ==>
        r[|validShippingMethods| + j] == WarehouseChoice(validPickUpPoints[j])
    {
      ShippingChoices(validShippingMethods) + WarehouseChoices(validPickUpPoints)
    }

    /** A delivery method is valid exactly when it is one of the valid
        shipping methods or one of the valid pick-up points. */
    lemma ValidDeliveryMethodsMembership(d: DeliveryMethod)
      ensures d in ValidDeliveryMethods() <==>
        (d.ShippingMethodChoice? && d.shippingMethod in validShippingMethods)
        || (d.WarehouseChoice? && d.warehouse in validPickUpPoints)
    {
    }

    /** The country of the shipping address when there is one, else of the
        billing address; the checkout's own country when that address is
        missing or has no country. A shipping address without a country does
        not fall through to the billing address. */
    function GetCountry(): (r: CountryCode)
      reads this
      ensures shippingAddress.Some? && shippingAddress.value.country != "" ==> r == shippingAddress.value.country
      ensures shippingAddress.Some? && shippingAddress.value.country == "" ==> r == checkout.country
      ensures shippingAddress.None? && billingAddress.Some? && billingAddress.value.country != "" ==>
        r == billingAddress.value.country
      ensures shippingAddress.None? && (billingAddress.None? || billingAddress.value.country == "") ==>
        r == checkout.country
    {
      var address := if shippingAddress.Some? then shippingAddress else billingAddress;
      if address.None? || address.value.country == "" then checkout.country
      else address.value.country
    }

    /** A non-empty country whenever the checkout has one. */
    lemma GetCountryIsSet()
      requires checkout.country != ""
      ensures GetCountry() != ""
    {
    }

    /** The signed-in user's email, else the guest email of the checkout. */
    function GetCustomerEmail(): (r: string)
      reads this
      ensures user.Some? ==> r == user.value.email
      ensures user.None? ==> r == checkout.email
    {
      if user.Some? then user.value.email else checkout.email
    }
  }

  /** fetch_checkout_info: assemble the snapshot of a checkout. The delivery
      method is classified first, so the collaborators see the classification
      (with both valid lists still empty) when the lists are computed. */
  method FetchCheckoutInfo(
    checkout: Checkout, lines: seq<CheckoutLineInfo>, discounts: seq<DiscountInfo>,
    listingStore: seq<ShippingMethodChannelListing>, env: Collaborators)
    returns (info: CheckoutInfo)
    ensures fresh(info) && info.Valid()
    ensures info.checkout == checkout && info.user == checkout.user && info.channel == checkout.channel
    ensures info.billingAddress == checkout.billingAddress && info.shippingAddress == checkout.shippingAddress
    ensures info.shippingMethod == checkout.shippingMethod
    ensures info.shippingMethodChannelListings
      == FirstShippingListing(listingStore, checkout.shippingMethod, checkout.channel)
    ensures FromDeliveryMethod(ChosenDeliveryMethod(checkout), checkout.shippingAddress)
      == Success(info.deliveryMethodInfo)
    ensures var seen := info.State().(validShippingMethods := [], validPickUpPoints := []);
      && info.validShippingMethods == ValidShippingMethodList(seen, checkout.shippingAddress, lines, discounts, env)
      && info.validPickUpPoints == ValidCollectionPointList(lines, env)
  {
    var channel := checkout.channel;
    var shippingAddress := checkout.shippingAddress;
    var shippingMethod := checkout.shippingMethod;
    var shippingChannelListings := FirstShippingListing(listingStore, shippingMethod, channel);
    var deliveryMethod := ChosenDeliveryMethod(checkout);
    var deliveryMethodInfo := FromDeliveryMethod(deliveryMethod, shippingAddress).value;
    info := new CheckoutInfo(
      checkout, checkout.user, channel, checkout.billingAddress, shippingAddress,
      shippingMethod, deliveryMethodInfo, [], [], shippingChannelListings);
    var validShippingMethods := ValidShippingMethodList(info.State(), shippingAddress, lines, discounts, env);
    var validPickUpPoints := ValidCollectionPointList(lines, env);
    info.validShippingMethods := validShippingMethods;
    info.validPickUpPoints := validPickUpPoints;
    info.deliveryMethodInfo := deliveryMethodInfo;
  }

  /** update_checkout_info_shipping_address: store the new address, recompute
      the valid shipping methods against it and re-classify the same
      delivery method against it. Pick-up points, the shipping method and
      its listing stay as they were. */
  method UpdateCheckoutInfoShippingAddress(
    info: CheckoutInfo, address: Option<Address>, lines: seq<CheckoutLineInfo>,
    discounts: seq<DiscountInfo>, env: Collaborators)
    requires info.Valid()
    modifies info
    ensures info.Valid()
    ensures info.shippingAddress == address
    ensures info.validShippingMethods
      == ValidShippingMethodList(old(info.State()).(shippingAddress := address), address, lines, discounts, env)
    ensures FromDeliveryMethod(old(info.deliveryMethodInfo.deliveryMethod), address)
      == Success(info.deliveryMethodInfo)
    ensures info.deliveryMethodInfo.deliveryMethod == old(info.deliveryMethodInfo.deliveryMethod)
    ensures old(info.deliveryMethodInfo.isClickAndCollect) ==> info.deliveryMethodInfo == old(info.deliveryMethodInfo)
    ensures info.checkout == old(info.checkout) && info.user == old(info.user) && info.channel == old(info.channel)
    ensures info.billingAddress == old(info.billingAddress) && info.shippingMethod == old(info.shippingMethod)
    ensures info.validPickUpPoints == old(info.validPickUpPoints)
    ensures info.shippingMethodChannelListings == old(info.shippingMethodChannelListings)
  {
    info.shippingAddress := address;
    var validMethods := ValidShippingMethodList(info.State(), address, lines, discounts, env);
    info.validShippingMethods := validMethods;
    var deliveryMethod := info.deliveryMethodInfo.deliveryMethod;
    info.deliveryMethodInfo := FromDeliveryMethod(deliveryMethod, address).value;
  }

  /** update_checkout_info_shipping_method: store the method and look up its
      listing in the snapshot's channel; no method means no listing. */
  method UpdateCheckoutInfoShippingMethod(
    info: CheckoutInfo, shippingMethod: Option<ShippingMethod>,
    listingStore: seq<ShippingMethodChannelListing>)
    requires info.Valid()
    modifies info
    ensures info.Valid()
    ensures info.shippingMethod == shippingMethod
    ensures shippingMethod.None? ==> info.shippingMethodChannelListings.None?
    ensures shippingMethod.Some? ==>
      info.shippingMethodChannelListings == FirstShippingListing(listingStore, shippingMethod, info.channel)
    ensures info.State() == old(info.State()).(
      shippingMethod := info.shippingMethod,
      shippingMethodChannelListings := info.shippingMethodChannelListings)
  {
    info.shippingMethod := shippingMethod;
    info.shippingMethodChannelListings :=
      if shippingMethod.Some? then FirstShippingListing(listingStore, shippingMethod, info.channel) else None;
  }

  /** update_checkout_info_delivery_method: re-classify the new method against
      the current shipping address. For shipped delivery the listing is looked
      up for the method (cleared when there is none); for click-and-collect it
      is left alone. The legacy shipping method is never touched. A method of
      an unsupported kind fails before anything is changed. */
  method UpdateCheckoutInfoDeliveryMethod(
    info: CheckoutInfo, deliveryMethod: Option<DeliveryMethod>,
    listingStore: seq<ShippingMethodChannelListing>)
    returns (outcome: Outcome<ClassifyError>)
    requires info.Valid()
    modifies info
    ensures info.Valid()
    ensures outcome.Fail? <==> deliveryMethod.Some? && deliveryMethod.value.OtherKind?
    ensures outcome.Fail? ==> info.State() == old(info.State())
    ensures outcome.Pass? ==>
      && FromDeliveryMethod(deliveryMethod, old(info.shippingAddress)) == Success(info.deliveryMethodInfo)
      && (info.deliveryMethodInfo.isClickAndCollect ==>
            info.shippingMethodChannelListings == old(info.shippingMethodChannelListings))
      && (!info.deliveryMethodInfo.isClickAndCollect && deliveryMethod.None? ==>
            info.shippingMethodChannelListings.None?)
      && (!info.deliveryMethodInfo.isClickAndCollect && deliveryMethod.Some? ==>
            info.shippingMethodChannelListings == FirstShippingListing(
              listingStore, Some(deliveryMethod.value.shippingMethod), info.channel))
      && info.State() == old(info.State()).(
           deliveryMethodInfo := info.deliveryMethodInfo,
           shippingMethodChannelListings := info.shippingMethodChannelListings)
  {
    var classified := FromDeliveryMethod(deliveryMethod, info.shippingAddress);
    if classified.Failure? {
      return Fail(classified.error);
    }
    info.deliveryMethodInfo := classified.value;
    if !info.deliveryMethodInfo.isClickAndCollect {
      var shippingMethod := info.deliveryMethodInfo.deliveryMethod;
      info.shippingMethodChannelListings :=
        if deliveryMethod.Some?
        then FirstShippingListing(listingStore, Some(shippingMethod.value.shippingMethod), info.channel)
        else None;
    }
    outcome := Pass;
  }
}
