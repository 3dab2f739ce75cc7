/**
 * The place-order route: turning the checkout snapshot posted by the browser
 * into the WooCommerce order-creation body, and the required-field check that
 * decides whether that body is sent upstream at all.
 *
 * The snapshot is parsed JSON typed `any` in the route, so the fields it only
 * passes through or tests for truthiness are JavaScript values (`Json`).
 * The shipping cost is an amount of cents; `None` stands for a cost that is
 * not a number, on which `toFixed` throws.
 */
module PlaceOrder {
  import opened JsValues
  import opened Decimal

  /** One `{ name, value }` entry of an item's `customFields`. */
  datatype CustomField = CustomField(name: string, value: string)

  /** One element of `checkoutData.cartItems`, with the fields the route reads.
      `customFields` is `None` when it is missing or otherwise falsy. */
  datatype OrderItem = OrderItem(
    id: Json,
    quantity: Json,
    variationId: Json,
    variations: Json,
    metadata: Json,
    customFields: Option<seq<CustomField>>)

  datatype CheckoutData = CheckoutData(
    cartItems: seq<OrderItem>,
    billing: Json,
    shipping: Json,
    paymentMethod: Json,
    shippingMethod: Json,
    shippingCost: Option<int>,
    coupon: Json,
    customerNote: Json)

  /** One `{ key, value }` entry of a line item's `meta_data`. */
  datatype MetaEntry = MetaEntry(key: string, value: Json)

  datatype LineItem = LineItem(productId: Json, quantity: Json, variationId: Json, metaData: seq<MetaEntry>)

  datatype ShippingLine = ShippingLine(methodId: Json, methodTitle: string, total: string)

  datatype CouponLine = CouponLine(code: Json, usedBy: Json)

  datatype OrderBody = OrderBody(
    paymentMethod: Json,
    paymentMethodTitle: string,
    billing: Json,
    shipping: Json,
    customerNote: Json,
    lineItems: seq<LineItem>,
    shippingLines: seq<ShippingLine>,
    couponLines: seq<CouponLine>)

  /** What `POST` answers: 400 "Missing required order fields", 500 "Internal
      Server Error" for anything thrown, or the order body it sends upstream. */
  datatype Response = MissingFields | ServerError | Forwarded(order: OrderBody)

  const PaymentMethodTitle := "Online Payment"

  /** `item.customFields || []` */
  function FieldsOrEmpty(fields: Option<seq<CustomField>>): seq<CustomField>
  {
    match fields
    case None => []
    case Some(fs) => fs
  }

  /** Each custom field flattened into its own `meta_data` entry. */
  function CustomMeta(fields: seq<CustomField>): (r: seq<MetaEntry>)
    ensures |r| == |fields|
    ensures forall j :: 0 <= j < |r| ==> r[j].key == fields[j].name
  {
    seq(|fields|, j requires 0 <= j < |fields| => MetaEntry(fields[j].name, Str(fields[j].value)))
  }

  /** Reads the custom fields back from flattened entries; `None` when an
      entry's value is not a string. */
  function Unflatten(entries: seq<MetaEntry>): Option<seq<CustomField>>
  {
    if entries == [] then Some([])
    else match (entries[0].value, Unflatten(entries[1..]))
      case (Str(v), Some(rest)) => Some([CustomField(entries[0].key, v)] + rest)
      case _ => None
  }

  /** Flattening loses nothing: every custom field, with its name and value
      and in its original position, can be read back from the entries. */
  lemma {:induction false} UnflattenCustomMeta(fields: seq<CustomField>)
    ensures Unflatten(CustomMeta(fields)) == Some(fields)
  {
    if fields != [] {
      UnflattenCustomMeta(fields[1..]);
      assert CustomMeta(fields)[1..] == CustomMeta(fields[1..]);
      assert [fields[0]] + fields[1..] == fields;
    }
  }

  /** The `line_items` element built from one cart item. */
  function BuildLineItem(item: OrderItem): (li: LineItem)
    ensures li.productId == item.id && li.quantity == item.quantity
    ensures Truthy(item.variationId) ==> li.variationId == item.variationId
    ensures !Truthy(item.variationId) ==> li.variationId == Num(0)
    ensures |li.metaData| == 2 + |FieldsOrEmpty(item.customFields)|
    ensures li.metaData[0].key == "variations" && li.metaData[1].key == "metadata"
    ensures Truthy(item.variations) ==> li.metaData[0].value == item.variations
    ensures !Truthy(item.variations) ==> li.metaData[0].value == Arr([])
    ensures Truthy(item.metadata) ==> li.metaData[1].value == item.metadata
    ensures !Truthy(item.metadata) ==> li.metaData[1].value == Obj(map[])
    ensures Unflatten(li.metaData[2..]) == Some(FieldsOrEmpty(item.customFields))
  {
    var custom := CustomMeta(FieldsOrEmpty(item.customFields));
    var meta := [MetaEntry("variations", Or(item.variations, Arr([]))),
                 MetaEntry("metadata", Or(item.metadata, Obj(map[])))] + custom;
    assert meta[2..] == custom;
    UnflattenCustomMeta(FieldsOrEmpty(item.customFields));
    LineItem(item.id, item.quantity, Or(item.variationId, Num(0)), meta)
  }

  /** `cartItems.map(...)`: one line item per cart item, in cart order. */
  function LineItems(items: seq<OrderItem>): (r: seq<LineItem>)
    ensures |r| == |items|
    ensures forall i :: 0 <= i < |r| ==> r[i] == BuildLineItem(items[i])
  {
    seq(|items|, i requires 0 <= i < |items| => BuildLineItem(items[i]))
  }

  /** The human-readable shipping method title, from a closed mapping that
      falls back to "Flat Rate". */
  function MethodTitle(methodId: Json): (t: string)
    ensures t == "Free Shipping" <==> methodId == Str("free_shipping")
    ensures t == "Local Pickup" <==> methodId == Str("local_pickup")
    ensures t == "Flat Rate" <==> methodId != Str("free_shipping") && methodId != Str("local_pickup")
  {
    if methodId == Str("free_shipping") then "Free Shipping"
    else if methodId == Str("local_pickup") then "Local Pickup"
    else "Flat Rate"
  }

  /** Reads back a string of the form [-]digits.dd as an amount of cents. */
  function ParseFixed2(s: string): Option<int>
  {
    if |s| >= 1 && s[0] == '-' then
      match ParseUnsignedFixed2(s[1..])
      case Some(v) => Some(-v)
      case None => None
    else ParseUnsignedFixed2(s)
  }

  function ParseUnsignedFixed2(s: string): Option<int>
  {
    if |s| >= 4 && s[|s| - 3] == '.' && AllDigits(s[..|s| - 3]) && AllDigits(s[|s| - 2..])
    then Some(100 * FromDigits(s[..|s| - 3]) + FromDigits(s[|s| - 2..]))
    else None
  }

  /** `toFixed(2)` of an amount given in cents: the whole units, a point, and
      exactly two fractional digits; negative amounts get a leading '-'. */
  function FormatFixed2(cents: int): (r: string)
    ensures |r| >= 4 && r[|r| - 3] == '.' && AllDigits(r[|r| - 2..])
    ensures r[0] == '-' <==> cents < 0
    ensures var whole := if cents < 0 then r[1..|r| - 3] else r[..|r| - 3];
      |whole| >= 1 && AllDigits(whole) && (whole[0] == '0' ==> |whole| == 1)
    ensures ParseFixed2(r) == Some(cents)
  {
    var m: nat := if cents < 0 then -cents else cents;
    var frac := [DigitChar(m % 100 / 10), DigitChar(m % 10)];
    var whole := NatToString(m / 100);
    var unsigned := whole + "." + frac;
    UnsignedFixed2RoundTrip(m, unsigned, frac);
    assert unsigned[..|unsigned| - 3] == whole && unsigned[0] == whole[0];
    assert whole[0] == '0' ==> whole == "0";
    if cents < 0 then
      var r := "-" + unsigned;
      assert r[1..|r| - 3] == whole;
      r
    else unsigned
  }

  lemma UnsignedFixed2RoundTrip(m: nat, unsigned: string, frac: string)
    requires frac == [DigitChar(m % 100 / 10), DigitChar(m % 10)]
    requires unsigned == NatToString(m / 100) + "." + frac
    ensures |unsigned| >= 4 && unsigned[0] != '-'
    ensures ParseUnsignedFixed2(unsigned) == Some(m)
  {
    var whole := NatToString(m / 100);
    assert unsigned[..|unsigned| - 3] == whole;
    assert unsigned[|unsigned| - 2..] == frac;
    FromDigitsOfNatToString(m / 100);
    TwoDigits(m % 100 / 10, m % 10);
    CentsSplit(m);
  }

  lemma CentsSplit(m: nat)
    ensures m == 100 * (m / 100) + 10 * (m % 100 / 10) + m % 10
  {
    var q, r := m / 100, m % 100;
    assert m == 100 * q + r;
    assert r == 10 * (r / 10) + r % 10;
    assert r % 10 == m % 10;
  }

  lemma TwoDigits(hi: nat, lo: nat)
    requires hi < 10 && lo < 10
    ensures FromDigits([DigitChar(hi), DigitChar(lo)]) == 10 * hi + lo
  {
    var s := [DigitChar(hi), DigitChar(lo)];
    assert s[..1] == [DigitChar(hi)];
    assert [DigitChar(hi)][..0] == [];
    assert FromDigits([DigitChar(hi)]) == hi;
    assert FromDigits(s) == 10 * FromDigits(s[..1]) + DigitValue(s[1]);
  }

  /** The single shipping line. Throws when the cost is not a number. */
  function ShippingLines(data: CheckoutData): (r: Result<seq<ShippingLine>>)
    ensures r.Throws? <==> data.shippingCost.None?
    ensures r.Ok? ==> |r.value| == 1 && r.value[0].methodId == data.shippingMethod
    ensures r.Ok? ==> r.value[0].methodTitle == MethodTitle(data.shippingMethod)
    ensures r.Ok? ==> ParseFixed2(r.value[0].total) == data.shippingCost
  {
    match data.shippingCost
    case None => Throws(TypeError)
    case Some(cents) =>
      Ok([ShippingLine(data.shippingMethod, MethodTitle(data.shippingMethod), FormatFixed2(cents))])
  }

  /** The coupon lines: none without a coupon; with one, its code and the
      billing email. The email is read even when billing is missing, which
      throws before the required-field check is reached. */
  function CouponLines(data: CheckoutData): (r: Result<seq<CouponLine>>)
    ensures !Truthy(data.coupon) ==> r == Ok([])
    ensures Truthy(data.coupon) ==> (r.Throws? <==> data.billing == Undefined || data.billing == Null)
    ensures Truthy(data.coupon) && r.Ok? ==>
      |r.value| == 1 && Member(data.coupon, "code") == Ok(r.value[0].code)
      && Member(data.billing, "email") == Ok(r.value[0].usedBy)
  {
    if !Truthy(data.coupon) then Ok([])
    else
      match (Member(data.coupon, "code"), Member(data.billing, "email"))
      case (Ok(code), Ok(email)) => Ok([CouponLine(code, email)])
      case _ => Throws(TypeError)
  }

  /** The `orderData` object of the route, or the exception its construction
      throws. */
  function Transform(data: CheckoutData): (r: Result<OrderBody>)
    ensures r.Throws? <==>
      data.shippingCost.None? || (Truthy(data.coupon) && (data.billing == Undefined || data.billing == Null))
    ensures r.Ok? ==>
      && r.value.paymentMethod == data.paymentMethod
      && r.value.paymentMethodTitle == "Online Payment"
      && r.value.billing == data.billing
      && r.value.shipping == data.shipping
      && r.value.customerNote == data.customerNote
      && r.value.lineItems == LineItems(data.cartItems)
      && Ok(r.value.shippingLines) == ShippingLines(data)
      && Ok(r.value.couponLines) == CouponLines(data)
      && |r.value.lineItems| == |data.cartItems|
      && |r.value.shippingLines| == 1
      && (r.value.couponLines == [] <==> !Truthy(data.coupon))
  {
    match (ShippingLines(data), CouponLines(data))
    case (Ok(shippingLines), Ok(couponLines)) =>
      Ok(OrderBody(
        data.paymentMethod, PaymentMethodTitle, data.billing, data.shipping, data.customerNote,
        LineItems(data.cartItems), shippingLines, couponLines))
    case _ => Throws(TypeError)
  }

  /** JavaScript truthiness of the `line_items` array: an array is truthy
      even when empty. */
  predicate ArrayTruthy<T>(s: seq<T>)
  {
    true
  }

  /** The required-field check: a falsy billing, shipping, `line_items` or
      payment method. The `line_items` test never fires, so only the other
      three decide. */
  function MissingRequired(order: OrderBody): (missing: bool)
    ensures missing <==> !Truthy(order.billing) || !Truthy(order.shipping) || !Truthy(order.paymentMethod)
  {
    !Truthy(order.billing) || !Truthy(order.shipping)
    || !ArrayTruthy(order.lineItems) || !Truthy(order.paymentMethod)
  }

  /** `POST`, up to the upstream request. */
  function Post(data: CheckoutData): (resp: Response)
    ensures resp == ServerError <==> Transform(data).Throws?
    ensures resp == MissingFields <==>
      Transform(data).Ok?
      && (!Truthy(data.billing) || !Truthy(data.shipping) || !Truthy(data.paymentMethod))
    ensures resp.Forwarded? ==>
      Transform(data) == Ok(resp.order)
      && Truthy(data.billing) && Truthy(data.shipping) && Truthy(data.paymentMethod)
  {
    match Transform(data)
    case Throws(_) => ServerError
    case Ok(order) => if MissingRequired(order) then MissingFields else Forwarded(order)
  }

  /** An empty cart is not rejected by the required-field check: the order
      goes upstream with no line items. */
  lemma EmptyCartIsForwarded(data: CheckoutData)
    requires data.cartItems == [] && data.shippingCost.Some?
    requires Truthy(data.billing) && Truthy(data.shipping) && Truthy(data.paymentMethod)
    ensures Post(data).Forwarded? && Post(data).order.lineItems == []
  {
  }

  /** With a coupon and no billing at all, the route answers 500, not the 400
      of the required-field check: the billing email is read first. */
  lemma CouponWithoutBillingIsServerError(data: CheckoutData)
    requires Truthy(data.coupon) && (data.billing == Undefined || data.billing == Null)
    ensures Post(data) == ServerError
  {
  }

  /** Without a coupon, missing billing gives the 400 answer, and no order is
      sent upstream. */
  lemma MissingBillingWithoutCouponIsRejected(data: CheckoutData)
    requires !Truthy(data.coupon) && !Truthy(data.billing) && data.shippingCost.Some?
    ensures Post(data) == MissingFields
  {
  }

  /** The shipping total for a cost of 5 (500 cents) is "5.00". */
  lemma FiveIsFiveDotZeroZero()
    ensures FormatFixed2(500) == "5.00"
  {
  }

  /** A cart item with custom field Color = Red yields the variations entry,
      the metadata entry and the Color entry, in that order. */
  lemma ColorRedExample(item: OrderItem)
    requires item.customFields == Some([CustomField("Color", "Red")])
    ensures |BuildLineItem(item).metaData| == 3
    ensures BuildLineItem(item).metaData[2] == MetaEntry("Color", Str("Red"))
  {
  }
}
