/**
 * The cart drawer: what its quantity buttons and Remove button ask of the
 * cart store, when removing a row sends the shopper back to the shop, the
 * label lines of each row, and the targets of its two links.
 *
 * The cart store (`@/store/useCartStore`) is not modelled. The bodies of its
 * operations below are assumed, not derived: each changes or deletes the row
 * with the same (product id, variation id) key, which is how the drawer uses
 * them.
 */
module Cart {
  import opened Decimal

  /** One variation descriptor of a cart row (e.g. Color: Red). */
  datatype Attribute = Attribute(name: string, value: string)

  datatype Category = Category(name: string)

  /** A cart row. Its price is a floating-point number and is not modelled. */
  datatype CartItem = CartItem(
    id: nat,
    variationId: nat,
    name: string,
    quantity: int,
    variations: seq<Attribute>,
    categories: seq<Category>)

  /** The identity of a row: product id and variation id. */
  function KeyOf(item: CartItem): (nat, nat)
  {
    (item.id, item.variationId)
  }

  /** The key React uses for a row, `${id}-${variation_id}`: a dash with
      the digits of the id before it and those of the variation id after. */
  function RowKey(item: CartItem): (key: string)
    ensures exists i :: 0 < i < |key| - 1 && key[i] == '-'
              && AllDigits(key[..i]) && FromDigits(key[..i]) == item.id
              && AllDigits(key[i + 1..]) && FromDigits(key[i + 1..]) == item.variationId
  {
    var a := NatToString(item.id);
    var b := NatToString(item.variationId);
    FromDigitsOfNatToString(item.id);
    FromDigitsOfNatToString(item.variationId);
    var key := a + "-" + b;
    assert key[|a|] == '-' && key[..|a|] == a && key[|a| + 1..] == b;
    key
  }

  /** Rows with the same React key have the same identity, so the React key
      is a faithful stand-in for the (id, variation id) pair. */
  lemma RowKeyIdentifiesRow(a: CartItem, b: CartItem)
    requires RowKey(a) == RowKey(b)
    ensures KeyOf(a) == KeyOf(b)
  {
    DashSplit(NatToString(a.id), NatToString(a.variationId), NatToString(b.id), NatToString(b.variationId));
    NatToStringInjective(a.id, b.id);
    NatToStringInjective(a.variationId, b.variationId);
  }

  predicate KeysUnique(items: seq<CartItem>)
  {
    forall i, j :: 0 <= i < j < |items| ==> KeyOf(items[i]) != KeyOf(items[j])
  }

  predicate QuantitiesPositive(items: seq<CartItem>)
  {
    forall x :: x in items ==> x.quantity >= 1
  }

  /** The cart's invariant: one row per identity, no row at quantity zero
      or below. */
  predicate WellFormed(items: seq<CartItem>)
  {
    KeysUnique(items) && QuantitiesPositive(items)
  }

  /** The rows with the quantity of the row keyed `key` changed by `delta`. */
  function WithQuantityChange(items: seq<CartItem>, key: (nat, nat), delta: int): (r: seq<CartItem>)
    ensures |r| == |items|
    ensures forall i :: 0 <= i < |r| ==> KeyOf(r[i]) == KeyOf(items[i])
    ensures forall i :: 0 <= i < |r| && KeyOf(items[i]) != key ==> r[i] == items[i]
    ensures forall i :: 0 <= i < |r| && KeyOf(items[i]) == key ==>
              r[i] == items[i].(quantity := items[i].quantity + delta)
  {
    seq(|items|, i requires 0 <= i < |items| =>
      if KeyOf(items[i]) == key then items[i].(quantity := items[i].quantity + delta) else items[i])
  }

  /** The rows without the row keyed `key`, in their order. */
  function Without(items: seq<CartItem>, key: (nat, nat)): (r: seq<CartItem>)
    ensures forall x :: x in r <==> x in items && KeyOf(x) != key
    ensures |r| <= |items|
  {
    if items == [] then []
    else if KeyOf(items[0]) == key then Without(items[1..], key)
    else [items[0]] + Without(items[1..], key)
  }

  /** Removing the key of a row that is in a cart with unique keys removes
      exactly one row. */
  lemma {:induction false} WithoutPresentKey(items: seq<CartItem>, item: CartItem)
    requires KeysUnique(items) && item in items
    ensures |Without(items, KeyOf(item))| == |items| - 1
  {
    var rest := items[1..];
    assert KeysUnique(rest) by {
      forall i, j | 0 <= i < j < |rest| ensures KeyOf(rest[i]) != KeyOf(rest[j]) {
        assert rest[i] == items[i + 1] && rest[j] == items[j + 1];
      }
    }
    if items[0] == item {
      assert forall x :: x in rest ==> KeyOf(x) != KeyOf(item) by {
        forall x | x in rest ensures KeyOf(x) != KeyOf(item) {
          var j :| 0 <= j < |rest| && rest[j] == x;
          assert items[j + 1] == x;
        }
      }
      WithoutAbsentKey(rest, KeyOf(item));
    } else {
      assert item in rest;
      WithoutPresentKey(rest, item);
      var j :| 0 <= j < |rest| && rest[j] == item;
      assert items[j + 1] == item;
      assert KeyOf(items[0]) != KeyOf(items[j + 1]);
    }
  }

  /** Removing a key no row has changes nothing. */
  lemma {:induction false} WithoutAbsentKey(items: seq<CartItem>, key: (nat, nat))
    requires forall x :: x in items ==> KeyOf(x) != key
    ensures Without(items, key) == items
  {
    if items != [] {
      assert items[0] in items;
      assert forall x :: x in items[1..] ==> x in items;
      WithoutAbsentKey(items[1..], key);
      assert [items[0]] + items[1..] == items;
    }
  }

  /** Removing a row keeps the cart well formed. */
  lemma {:induction false} WithoutKeepsWellFormed(items: seq<CartItem>, key: (nat, nat))
    requires WellFormed(items)
    ensures WellFormed(Without(items, key))
  {
    if items != [] {
      var rest := items[1..];
      assert forall x :: x in rest ==> x in items;
      assert KeysUnique(rest) by {
        forall i, j | 0 <= i < j < |rest| ensures KeyOf(rest[i]) != KeyOf(rest[j]) {
          assert rest[i] == items[i + 1] && rest[j] == items[j + 1];
        }
      }
      WithoutKeepsWellFormed(rest, key);
      var w := Without(rest, key);
      if KeyOf(items[0]) != key {
        forall x | x in w ensures KeyOf(x) != KeyOf(items[0]) {
          var j :| 0 <= j < |rest| && rest[j] == x;
          assert items[j + 1] == x;
        }
        PrependKeepsKeysUnique(items[0], w);
      }
    }
  }

  /** A row whose key no other row has can be put in front of unique rows. */
  lemma PrependKeepsKeysUnique(x: CartItem, w: seq<CartItem>)
    requires KeysUnique(w) && forall y :: y in w ==> KeyOf(y) != KeyOf(x)
    ensures KeysUnique([x] + w)
  {
    var r := [x] + w;
    forall i, j | 0 <= i < j < |r| ensures KeyOf(r[i]) != KeyOf(r[j]) {
      if i == 0 {
        assert r[j] == w[j - 1] && r[j] in w;
      } else {
        assert r[i] == w[i - 1] && r[j] == w[j - 1];
      }
    }
  }

  /** In a cart with unique keys, a key is found at one index only. */
  lemma SameKeySameIndex(items: seq<CartItem>, i: nat, k: nat)
    requires KeysUnique(items) && i < |items| && k < |items|
    requires KeyOf(items[i]) == KeyOf(items[k])
    ensures i == k
  {
    assert !(i < k) && !(k < i);
  }

  /** Changing a quantity keeps the keys unique; it keeps every quantity
      positive when the changed row stays at one or more. */
  lemma QuantityChangeKeepsWellFormed(items: seq<CartItem>, item: CartItem, delta: int)
    requires WellFormed(items) && item in items && item.quantity + delta >= 1
    ensures WellFormed(WithQuantityChange(items, KeyOf(item), delta))
  {
    var r := WithQuantityChange(items, KeyOf(item), delta);
    var k :| 0 <= k < |items| && items[k] == item;
    forall x | x in r ensures x.quantity >= 1 {
      var i :| 0 <= i < |r| && r[i] == x;
      if KeyOf(items[i]) == KeyOf(item) {
        SameKeySameIndex(items, i, k);
      } else {
        assert items[i] in items;
      }
    }
  }

  datatype QuantityAction = Increase | Decrease

  /** What the cart store is asked to do. */
  datatype Command = Increment | Decrement | Remove

  /** `handleQuantityChange`'s policy: "decrease" at quantity exactly 1
      removes the row instead of decrementing it. */
  function Dispatch(item: CartItem, action: QuantityAction): (c: Command)
    ensures c == Increment <==> action == Increase
    ensures c == Remove <==> action == Decrease && item.quantity == 1
    ensures c == Decrement <==> action == Decrease && item.quantity != 1
  {
    match action
    case Increase => Increment
    case Decrease => if item.quantity == 1 then Remove else Decrement
  }

  /** The store operation a command stands for, on the row keyed `key`. */
  function Apply(items: seq<CartItem>, c: Command, key: (nat, nat)): seq<CartItem>
  {
    match c
    case Increment => WithQuantityChange(items, key, 1)
    case Decrement => WithQuantityChange(items, key, -1)
    case Remove => Without(items, key)
  }

  /** Whatever button is pressed on a row of a well-formed cart, the cart
      stays well formed: in particular "decrease" never leaves a row at
      quantity zero. */
  lemma DispatchKeepsWellFormed(items: seq<CartItem>, item: CartItem, action: QuantityAction)
    requires WellFormed(items) && item in items
    ensures WellFormed(Apply(items, Dispatch(item, action), KeyOf(item)))
  {
    match Dispatch(item, action)
    case Increment =>
      QuantityChangeKeepsWellFormed(items, item, 1);
    case Decrement =>
      QuantityChangeKeepsWellFormed(items, item, -1);
    case Remove =>
      WithoutKeepsWellFormed(items, KeyOf(item));
  }

  /** "decrease" at quantity 1 takes the row out of the cart altogether. */
  lemma DecreaseAtOneRemovesRow(items: seq<CartItem>, item: CartItem)
    requires KeysUnique(items) && item in items && item.quantity == 1
    ensures forall x :: x in Apply(items, Dispatch(item, Decrease), KeyOf(item)) ==> KeyOf(x) != KeyOf(item)
    ensures |Apply(items, Dispatch(item, Decrease), KeyOf(item))| == |items| - 1
  {
    WithoutPresentKey(items, item);
  }

  /** The cart store's row list, with the operations the drawer calls. */
  class CartStore {
    var items: seq<CartItem>

    constructor (items: seq<CartItem>)
      ensures this.items == items
    {
      this.items := items;
    }

    /** `increaseCartQuantity` (assumed). */
    method IncreaseCartQuantity(item: CartItem)
      modifies this
      ensures items == WithQuantityChange(old(items), KeyOf(item), 1)
    {
      items := WithQuantityChange(items, KeyOf(item), 1);
    }

    /** `decreaseCartQuantity` (assumed); it does not delete a row that
        reaches zero. */
    method DecreaseCartQuantity(item: CartItem)
      modifies this
      ensures items == WithQuantityChange(old(items), KeyOf(item), -1)
    {
      items := WithQuantityChange(items, KeyOf(item), -1);
    }

    /** `removeCartItem` (assumed). */
    method RemoveCartItem(item: CartItem)
      modifies this
      ensures items == Without(old(items), KeyOf(item))
    {
      items := Without(items, KeyOf(item));
    }
  }

  /** The "-" and "+" buttons of a row. */
  method HandleQuantityChange(cart: CartStore, item: CartItem, action: QuantityAction)
    modifies cart
    ensures cart.items == Apply(old(cart.items), Dispatch(item, action), KeyOf(item))
    ensures old(WellFormed(cart.items)) && item in old(cart.items) ==> WellFormed(cart.items)
  {
    if action == Increase {
      cart.IncreaseCartQuantity(item);
    } else if action == Decrease {
      if item.quantity == 1 {
        cart.RemoveCartItem(item);
      } else {
        cart.DecreaseCartQuantity(item);
      }
    }
    if WellFormed(old(cart.items)) && item in old(cart.items) {
      DispatchKeepsWellFormed(old(cart.items), item, action);
    }
  }

  /** The Remove button of a row: removes it, and asks to navigate to the
      shop when the drawer was showing a single row. */
  method HandleRemoveCartItem(cart: CartStore, item: CartItem) returns (toShop: bool)
    modifies cart
    ensures cart.items == Without(old(cart.items), KeyOf(item))
    ensures toShop <==> |old(cart.items)| == 1
  {
    var shown := |cart.items|;
    cart.RemoveCartItem(item);
    toShop := shown == 1;
  }

  /** For a row of a cart with unique keys, the drawer navigates to the shop
      exactly when the removal leaves the cart empty. */
  lemma RedirectIffCartEmptied(items: seq<CartItem>, item: CartItem)
    requires KeysUnique(items) && item in items
    ensures |items| == 1 <==> Without(items, KeyOf(item)) == []
  {
    WithoutPresentKey(items, item);
  }

  const Separator := " · "

  /** `Array.prototype.join`. */
  function Join(parts: seq<string>, sep: string): (r: string)
    ensures parts == [] ==> r == ""
    ensures |parts| == 1 ==> r == parts[0]
  {
    if parts == [] then ""
    else if |parts| == 1 then parts[0]
    else parts[0] + sep + Join(parts[1..], sep)
  }

  /** Joining one more part appends the separator and that part. */
  lemma {:induction false} JoinSnoc(parts: seq<string>, p: string, sep: string)
    requires parts != []
    ensures Join(parts + [p], sep) == Join(parts, sep) + sep + p
  {
    if |parts| > 1 {
      assert (parts + [p])[1..] == parts[1..] + [p];
      JoinSnoc(parts[1..], p, sep);
    } else {
      assert (parts + [p])[1..] == [p];
    }
  }

  /** The variation values that are shown: every value but "Unknown", in
      order. */
  function ShownValues(vs: seq<Attribute>): (r: seq<string>)
    ensures forall x :: x in r ==> x != "Unknown"
    ensures forall a :: a in vs && a.value != "Unknown" ==> a.value in r
    ensures forall x :: x in r ==> exists a :: a in vs && a.value == x
    ensures (forall a :: a in vs ==> a.value == "Unknown") ==> r == []
    ensures |r| <= |vs|
  {
    if vs == [] then []
    else
      var rest := ShownValues(vs[1..]);
      assert forall a :: a in vs[1..] ==> a in vs;
      if vs[0].value == "Unknown" then rest else [vs[0].value] + rest
  }

  /** Filtering distributes over concatenation, so the shown values keep the
      order of the descriptors. */
  lemma {:induction false} ShownValuesAppend(a: seq<Attribute>, b: seq<Attribute>)
    ensures ShownValues(a + b) == ShownValues(a) + ShownValues(b)
  {
    if a != [] {
      var ab := a + b;
      assert ab[0] == a[0] && ab[1..] == a[1..] + b;
      ShownValuesAppend(a[1..], b);
      if a[0].value == "Unknown" {
        assert ShownValues(ab) == ShownValues(ab[1..]);
      } else {
        assert ShownValues(ab) == [a[0].value] + ShownValues(ab[1..]);
      }
    } else {
      assert a + b == b;
    }
  }

  /** The first label line of a row: the shown variation values joined by
      " · ". */
  function VariationLabel(vs: seq<Attribute>): (text: string)
    ensures (forall a :: a in vs ==> a.value == "Unknown") ==> text == ""
    ensures |ShownValues(vs)| == 1 ==> text == ShownValues(vs)[0]
  {
    Join(ShownValues(vs), Separator)
  }

  /** "Red", "Unknown", "Slim" is labelled "Red · Slim". */
  lemma VariationLabelExample()
    ensures VariationLabel([Attribute("Color", "Red"), Attribute("Size", "Unknown"), Attribute("Fit", "Slim")])
            == "Red · Slim"
  {
    var vs := [Attribute("Color", "Red"), Attribute("Size", "Unknown"), Attribute("Fit", "Slim")];
    assert vs[1..][1..][1..] == [];
    assert ShownValues(vs) == ["Red", "Slim"];
  }

  function CategoryNames(cs: seq<Category>): (r: seq<string>)
    ensures |r| == |cs|
    ensures forall i :: 0 <= i < |r| ==> r[i] == cs[i].name
  {
    seq(|cs|, i requires 0 <= i < |cs| => cs[i].name)
  }

  /** The second label line of a row: every category name, in order, joined
      by " · ". */
  function CategoryLabel(cs: seq<Category>): (text: string)
    ensures cs == [] ==> text == ""
    ensures |cs| == 1 ==> text == cs[0].name
  {
    Join(CategoryNames(cs), Separator)
  }

  /** Adding a category appends " · " and its name to a non-empty label. */
  lemma CategoryLabelSnoc(cs: seq<Category>, c: Category)
    requires cs != []
    ensures CategoryLabel(cs + [c]) == CategoryLabel(cs) + Separator + c.name
  {
    assert CategoryNames(cs + [c]) == CategoryNames(cs) + [c.name];
    JoinSnoc(CategoryNames(cs), c.name, Separator);
  }

  /** The target of the drawer's Checkout ("/checkout") and Cart Page
      ("/cart") links: the page itself for a non-empty cart, "#" (stay put)
      for an empty one. */
  function LinkHref(items: seq<CartItem>, page: string): (href: string)
    requires page != "#"
    ensures href == page <==> items != []
    ensures href == "#" <==> items == []
  {
    if |items| > 0 then page else "#"
  }

  /** Removing the last row disables both links. */
  lemma LastRemovalDisablesLinks(items: seq<CartItem>, item: CartItem)
    requires KeysUnique(items) && item in items && |items| == 1
    ensures LinkHref(Without(items, KeyOf(item)), "/checkout") == "#"
    ensures LinkHref(Without(items, KeyOf(item)), "/cart") == "#"
  {
    RedirectIffCartEmptied(items, item);
  }
}
