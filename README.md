# Checkout delivery-context resolver (saleor `checkout/fetch.py`)

This project models how a Saleor checkout resolves its delivery context:

- **Delivery-method classifier** (`DeliveryMethodInfos`). A delivery method that is absent or a shipping method means shipped delivery. A warehouse means click-and-collect. The classification records:
  - the click-and-collect and local-collection-point flags;
  - the effective shipping address (a warehouse's own address for click-and-collect);
  - the pricing-strategy tag.

  Any other kind of object is rejected with `IncompatibleType`. `GetWarehouseFilterLookup` scopes stock queries to one warehouse for a local collection point.
- **Line loader** (`LineLoader`). It keeps, in order, each checkout line whose variant has a listing for the checkout's channel. When several listings match, the last one wins. Other lines are dropped silently. `FetchCheckoutLines` is the nested-loop method and `LoadedLines` is its specification.
- **Checkout snapshot** (`CheckoutInfos`).
  - `CheckoutInfo` is a class whose fields are rewritten in place. Its accessors are `ValidDeliveryMethods`, `GetCountry` and `GetCustomerEmail`.
  - `FetchCheckoutInfo` assembles the snapshot.
  - Three update methods rewrite specific fields: `UpdateCheckoutInfoShippingAddress`, `UpdateCheckoutInfoShippingMethod` and `UpdateCheckoutInfoDeliveryMethod`.

External collaborators are function-valued fields of `Collaborators`: the pricing calculator's subtotal, the shipping-eligibility resolver and the stock-eligibility resolver. They receive `InfoState`, a value snapshot of every field of the `CheckoutInfo`. The shipping-method channel-listing table is an ordered sequence argument, and `filter(...).first()` is `FirstShippingListing` over it.

Points where the code is followed exactly:

- `get_valid_shipping_method_list_for_checkout_info` prices the subtotal against the snapshot's own `shipping_address`. It takes the country code from the address passed in. Both callers make these the same address; the model keeps the two reads distinct.
- `fetch_checkout_info` looks up the listing for the checkout's `shipping_method` even when it is absent. No listing matches an absent method.
- `update_checkout_info_delivery_method` refreshes the listing for a shipping-method delivery method but leaves the legacy `shipping_method` field alone. After it, the held listing can belong to a different method than `shipping_method`. The model states this and does not forbid it.
- A click-and-collect result leaves the listing untouched.

## Model

| member | source | states |
|---|---|---|
| `DeliveryMethodInfos.FromDeliveryMethod` | saleor/checkout/fetch.py:92-128 | Fails exactly for an unsupported kind. Otherwise the result is well formed and keeps the method. It is click-and-collect iff the method is a warehouse. A shipped result keeps the given address. |
| `DeliveryMethodInfos.WarehouseClassification` | saleor/checkout/fetch.py:111-128 | A warehouse gives click-and-collect and the click-and-collect strategy. The address is the warehouse's own, whatever was passed. It is local iff the option is local stock. |
| `DeliveryMethodInfos.ShippedClassification` | saleor/checkout/fetch.py:97-109 | No method or a shipping method gives neither click-and-collect nor local. The address passed in is kept unchanged and the base shipping strategy is used. |
| `DeliveryMethodInfos.ClassificationIsUnique` | saleor/checkout/fetch.py:84-128 | Every well-formed info is exactly what the classifier builds from its own method (and address, for shipped delivery). Re-classifying it is the identity. |
| `DeliveryMethodInfos.DeliveryMethodInfo.GetWarehouseFilterLookup` | saleor/checkout/fetch.py:130-135 | The filter has at most the key `warehouse__pk`. It is non-empty iff the info is a local collection point with a method present, and then holds that method's pk. |
| `DeliveryMethodInfos.WarehouseFilterOfClassified` | saleor/checkout/fetch.py:111-135 | For a classified method, the filter is non-empty iff the method is a warehouse collecting from local stock. The filter is then keyed on that warehouse's id. |
| `LineLoader.LastMatchingListing` | saleor/checkout/fetch.py:153-156 | None iff no listing is for the channel. Otherwise it is one of the listings and is for the channel. |
| `LineLoader.LastMatchingListingIsLast` | saleor/checkout/fetch.py:153-156 | The loop has no break, so when several listings are for the channel the last of them is the one picked. |
| `LineLoader.LoadedLines` | saleor/checkout/fetch.py:145-173 | The result is never longer than the input. Every kept line comes from the input and carries its variant's last listing for the checkout's channel. |
| `LineLoader.LoadedLinesAreOrderedSubsequence` | saleor/checkout/fetch.py:147-173 | The k-th loaded line is the input line at the k-th kept position. The kept positions strictly increase, so line order is preserved. |
| `LineLoader.KeptIndicesAreListedLines` | saleor/checkout/fetch.py:153-161 | A position is kept iff its line's variant is listed in the checkout's channel. A line without such a listing is dropped, not reported as an error. |
| `LineLoader.FetchCheckoutLines` | saleor/checkout/fetch.py:138-173 | The nested loops compute exactly `LoadedLines` of the checkout's lines and channel. Every result line's listing has the checkout's channel id. |
| `CheckoutInfos.FirstShippingListing` | saleor/checkout/fetch.py:187-189 | None iff no stored listing is for the method and channel. Otherwise it is the first such listing in store order. |
| `CheckoutInfos.ChosenDeliveryMethod` | saleor/checkout/fetch.py:190 | The collection point when set, else the shipping method. Never an unsupported kind. |
| `CheckoutInfos.ValidShippingMethodList` | saleor/checkout/fetch.py:238-257 | The resolver gets the subtotal priced on the snapshot's shipping address and the country of the given address (none without one). A `None` answer becomes `[]`; otherwise its list is kept as is. |
| `CheckoutInfos.ValidShippingMethodListReadsOnlyCountry` | saleor/checkout/fetch.py:247 | Two addresses with the same country give the same valid shipping methods. |
| `CheckoutInfos.ValidCollectionPointList` | saleor/checkout/fetch.py:260-267 | The stock-eligibility resolver's answer over the lines, or `[]` when it returns `None`. |
| `CheckoutInfos.CheckoutInfo.constructor` | saleor/checkout/fetch.py:55-66 | Every field holds the value passed for it. |
| `CheckoutInfos.CheckoutInfo.ValidDeliveryMethods` | saleor/checkout/fetch.py:68-72 | The valid shipping methods in order, then the valid pick-up points in order. The length is the sum of the two. |
| `CheckoutInfos.CheckoutInfo.ValidDeliveryMethodsMembership` | saleor/checkout/fetch.py:68-72 | A delivery method is valid iff it is one of the valid shipping methods or one of the valid pick-up points. |
| `CheckoutInfos.CheckoutInfo.GetCountry` | saleor/checkout/fetch.py:74-78 | The shipping address's country if that address is present, else the billing address's. The checkout's country is used when the chosen address is absent or has no country. A shipping address without a country does not fall back to billing. |
| `CheckoutInfos.CheckoutInfo.GetCountryIsSet` | saleor/checkout/fetch.py:74-78 | The resolved country is non-empty whenever the checkout's own country is. |
| `CheckoutInfos.CheckoutInfo.GetCustomerEmail` | saleor/checkout/fetch.py:80-81 | The user's email when a user is set, else the checkout's email. |
| `CheckoutInfos.FetchCheckoutInfo` | saleor/checkout/fetch.py:176-217 | Each field is taken from the checkout, and the snapshot is valid. The listing is the first for (shipping method, channel). The classification is of the collection point, else the shipping method, against the shipping address. The two valid lists come from the collaborators, which see the classification and empty lists. |
| `CheckoutInfos.UpdateCheckoutInfoShippingAddress` | saleor/checkout/fetch.py:220-235 | Sets the address and recomputes only the valid shipping methods. Re-classifies the same delivery method against the new address; a click-and-collect classification is unchanged. Pick-up points, shipping method, listing and other fields are left as they were. |
| `CheckoutInfos.UpdateCheckoutInfoShippingMethod` | saleor/checkout/fetch.py:270-282 | Changes only the shipping method and the listing. The listing is the first for (method, channel), or None when the method is None. |
| `CheckoutInfos.UpdateCheckoutInfoDeliveryMethod` | saleor/checkout/fetch.py:285-304 | Fails and changes nothing for an unsupported kind. Otherwise re-classifies against the current address. A shipped result gets a fresh listing lookup (None without a method); click-and-collect keeps the listing. The shipping method and all other fields are never touched. |

## Left out

- Database access: `checkout.lines.prefetch_related(...)` is the checkout's `lines` sequence. The shipping-method channel-listing table is a sequence argument in database order. Query batching is not modelled.
- Pricing: `TaxedMoney` is a net/gross pair of integers in minor units. Decimal arithmetic is not modelled. The `base_calculations` functions the info points to are an enum tag (`ShippingCalculationStrategy`), and the `ShippingCalculation` protocol is not modelled.
- Collaborators: `manager.calculate_checkout_subtotal`, `get_valid_shipping_methods_for_checkout` and `get_valid_collection_points_for_checkout` are defined outside `fetch.py` and are not part of this model. They are arbitrary functions passed in. Exceptions they might raise are not modelled.
- `get_valid_collection_points_for_checkout_info` also receives the checkout info but does not read it; `ValidCollectionPointList` omits that parameter.
- `singledispatchmethod`: dispatch on the Python type becomes a `match` over `DeliveryMethod`. `OtherKind` stands for every object of another type.
- ValidShippingMethodList: its contract says only how the resolver's answer is passed through. What the resolver answers is up to the collaborator.
- Primary keys are natural numbers. The warehouse's UUID key is not modelled as a string.
- `WarehouseClickAndCollectOption` is defined in `saleor/warehouse`, which is not part of this model. Its three options (disabled, local stock, all warehouses) are modelled as an enum, and only local stock matters here.
- The Stripe gateway plugin and its test module `saleor/payment/gateways/stripe/tests/test_plugin.py` are not part of this model. The gateway orchestration they exercise is not included, because its source is not among the files modelled.
