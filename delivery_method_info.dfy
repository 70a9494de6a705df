/** Classification of a checkout's chosen delivery method: shipped delivery
    (no method or a shipping method) versus click-and-collect (a warehouse). */
module DeliveryMethodInfos {
  import opened Wrappers
  import opened Entities

  /** Which base price calculation prices this kind of delivery. */
  datatype ShippingCalculationStrategy =
    | BaseCheckoutShippingPrice
    | BaseCheckoutShippingPriceClickAndCollect

  /** Raised when the delivery method is of a kind the classifier has no case for. */
  datatype ClassifyError = IncompatibleType

  /** Key of the stock-query filter that scopes a query to one warehouse. */
  const WarehousePkKey: string := "warehouse__pk"

  datatype DeliveryMethodInfo = DeliveryMethodInfo(
    isClickAndCollect: bool,
    isLocalCollectionPoint: bool,
    deliveryMethod: Option<DeliveryMethod>,
    shippingAddress: Option<Address>,
    shippingCalculationStrategy: ShippingCalculationStrategy)
  {
    /** Exactly one of the three paths (none, shipping method, warehouse) is
        active and every flag, the address and the strategy agree with it. */
    predicate WellFormed() {
      match deliveryMethod
      case None =>
        !isClickAndCollect && !isLocalCollectionPoint
        && shippingCalculationStrategy == BaseCheckoutShippingPrice
      case Some(ShippingMethodChoice(_)) =>
        !isClickAndCollect && !isLocalCollectionPoint
        && shippingCalculationStrategy == BaseCheckoutShippingPrice
      case Some(WarehouseChoice(w)) =>
        isClickAndCollect
        && isLocalCollectionPoint == (w.clickAndCollectOption == LocalStock)
        && shippingAddress == Some(w.address)
        && shippingCalculationStrategy == BaseCheckoutShippingPriceClickAndCollect
      case Some(OtherKind(_, _)) => false
    }

    /** Filter that restricts stock lookups to the collection point, or the
        empty filter when stock may come from the whole warehouse network. */
    function GetWarehouseFilterLookup(): (r: map<string, nat>)
      ensures r.Keys <= {WarehousePkKey}
      ensures r != map[] <==> isLocalCollectionPoint && deliveryMethod.Some?
      ensures WarehousePkKey in r ==> r[WarehousePkKey] == deliveryMethod.value.Pk()
    {
      if isLocalCollectionPoint && deliveryMethod.Some? then
        var lookup := map[WarehousePkKey := deliveryMethod.value.Pk()];
        assert WarehousePkKey in lookup;
        lookup
      else
        map[]
    }
  }

  /** Dispatch on the kind of the delivery method. For no method or a
      shipping method the given address is kept; for a warehouse the
      warehouse's own address replaces it. */
  function FromDeliveryMethod(deliveryMethod: Option<DeliveryMethod>, shippingAddress: Option<Address>)
    : (r: Result<DeliveryMethodInfo, ClassifyError>)
    ensures r.Failure? <==> deliveryMethod.Some? && deliveryMethod.value.OtherKind?
    ensures r.Success? ==> r.value.WellFormed() && r.value.deliveryMethod == deliveryMethod
    ensures r.Success? ==>
      (r.value.isClickAndCollect <==> deliveryMethod.Some? && deliveryMethod.value.WarehouseChoice?)
    ensures r.Success? && !r.value.isClickAndCollect ==> r.value.shippingAddress == shippingAddress
  {
    match deliveryMethod
    case None =>
      Success(DeliveryMethodInfo(false, false, deliveryMethod, shippingAddress, BaseCheckoutShippingPrice))
    case Some(ShippingMethodChoice(_)) =>
      Success(DeliveryMethodInfo(false, false, deliveryMethod, shippingAddress, BaseCheckoutShippingPrice))
    case Some(WarehouseChoice(w)) =>
      Success(DeliveryMethodInfo(
        true,
        w.clickAndCollectOption == LocalStock,
        deliveryMethod,
        Some(w.address),
        BaseCheckoutShippingPriceClickAndCollect))
    case Some(OtherKind(_, _)) =>
      Failure(IncompatibleType)
  }

  /** A warehouse is classified as a local collection point exactly when it
      only collects from its own stock, whatever address is passed in. */
  lemma WarehouseClassification(w: Warehouse, shippingAddress: Option<Address>)
    ensures var r := FromDeliveryMethod(Some(WarehouseChoice(w)), shippingAddress);
      && r.Success?
      && r.value.isClickAndCollect
      && (r.value.isLocalCollectionPoint <==> w.clickAndCollectOption == LocalStock)
      && r.value.shippingAddress == Some(w.address)
      && r.value.shippingCalculationStrategy == BaseCheckoutShippingPriceClickAndCollect
      && r == FromDeliveryMethod(Some(WarehouseChoice(w)), None)
  {
  }

  /** Shipped delivery (no method or a shipping method) is never
      click-and-collect, never local, keeps the given address and is priced
      with the base shipping strategy. */
  lemma ShippedClassification(deliveryMethod: Option<DeliveryMethod>, shippingAddress: Option<Address>)
    requires deliveryMethod.None? || deliveryMethod.value.ShippingMethodChoice?
    ensures var r := FromDeliveryMethod(deliveryMethod, shippingAddress);
      && r.Success?
      && !r.value.isClickAndCollect
      && !r.value.isLocalCollectionPoint
      && r.value.shippingAddress == shippingAddress
      && r.value.shippingCalculationStrategy == BaseCheckoutShippingPrice
  {
  }

  /** WellFormed pins the classification down: a well-formed info is exactly
      what the classifier builds from its own method and, for shipped
      delivery, its own address. Re-classifying never changes it. */
  lemma ClassificationIsUnique(info: DeliveryMethodInfo, shippingAddress: Option<Address>)
    requires info.WellFormed()
    requires !info.isClickAndCollect ==> info.shippingAddress == shippingAddress
    ensures FromDeliveryMethod(info.deliveryMethod, shippingAddress) == Success(info)
  {
  }

  /** For a classified method the filter is non-empty exactly for a warehouse
      that collects from local stock, and then keys on that warehouse. */
  lemma WarehouseFilterOfClassified(deliveryMethod: Option<DeliveryMethod>, shippingAddress: Option<Address>)
    requires FromDeliveryMethod(deliveryMethod, shippingAddress).Success?
    ensures var lookup := FromDeliveryMethod(deliveryMethod, shippingAddress).value.GetWarehouseFilterLookup();
      && (lookup != map[] <==>
            deliveryMethod.Some? && deliveryMethod.value.WarehouseChoice?
            && deliveryMethod.value.warehouse.clickAndCollectOption == LocalStock)
      && (lookup != map[] ==> lookup == map[WarehousePkKey := deliveryMethod.value.warehouse.id])
  {
  }
}
