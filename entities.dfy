/** The persisted records the checkout resolver reads, as plain values.
    Every database-backed instance is "truthy" in the original program, so
    presence is modelled with Option; a country is empty exactly when its
    code is the empty string. */
module Entities {
  import opened Wrappers

  /** ISO country code; "" stands for a country field that is not set. */
  type CountryCode = string

  datatype Address = Address(id: nat, country: CountryCode)

  datatype Channel = Channel(id: nat, slug: string)

  datatype User = User(id: nat, email: string)

  datatype ShippingMethod = ShippingMethod(id: nat, name: string)

  /** How a warehouse takes part in click-and-collect. */
  datatype WarehouseClickAndCollectOption = Disabled | LocalStock | AllWarehouses

  datatype Warehouse = Warehouse(
    id: nat,
    address: Address,
    clickAndCollectOption: WarehouseClickAndCollectOption)

  /** The value a checkout may carry as its delivery method. Python dispatches
      on the runtime type, so any other kind of object can reach the
      classifier; OtherKind stands for every such object. */
  datatype DeliveryMethod =
    | ShippingMethodChoice(shippingMethod: ShippingMethod)
    | WarehouseChoice(warehouse: Warehouse)
    | OtherKind(typeName: string, id: nat)
  {
    /** The primary key of the underlying record. */
    function Pk(): nat {
      match this
      case ShippingMethodChoice(m) => m.id
      case WarehouseChoice(w) => w.id
      case OtherKind(_, id) => id
    }
  }

  /** Price rule of a shipping method in one channel. */
  datatype ShippingMethodChannelListing = ShippingMethodChannelListing(
    id: nat,
    shippingMethodId: nat,
    channelId: nat,
    price: int)

  /** Price and availability of a product variant in one channel. */
  datatype ProductVariantChannelListing = ProductVariantChannelListing(
    id: nat,
    channelId: nat,
    price: int)

  datatype Collection = Collection(id: nat)

  datatype ProductType = ProductType(id: nat)

  datatype Product = Product(id: nat, productType: ProductType, collections: seq<Collection>)

  datatype ProductVariant = ProductVariant(
    id: nat,
    product: Product,
    channelListings: seq<ProductVariantChannelListing>)

  datatype CheckoutLine = CheckoutLine(id: nat, variant: ProductVariant, quantity: nat)

  datatype Checkout = Checkout(
    token: nat,
    channel: Channel,
    user: Option<User>,
    email: string,
    country: CountryCode,
    billingAddress: Option<Address>,
    shippingAddress: Option<Address>,
    shippingMethod: Option<ShippingMethod>,
    collectionPoint: Option<Warehouse>,
    lines: seq<CheckoutLine>)

  datatype DiscountInfo = DiscountInfo(id: nat)

  /** A net/gross amount in minor units of one currency. */
  datatype TaxedMoney = TaxedMoney(net: int, gross: int, currency: string)
}
