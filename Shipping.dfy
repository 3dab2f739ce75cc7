/**
 * The shipping section of the checkout page: the schema its form is checked
 * against, and the EDITING/DISPLAY machine that commits a valid form into the
 * checkout store, mirroring it into billing when billing is the same as
 * shipping.
 */
module Shipping {
  import opened Decimal
  import opened JsValues

  /** A stored address object: field name to value. The form owns seven of
      its fields; any others (email, company, ...) belong to the store. */
  type Address = map<string, string>

  datatype Field = FirstName | LastName | Address1 | City | State | Postcode | Phone

  /** The key under which each form field is stored. */
  function Key(f: Field): string
  {
    match f
    case FirstName => "first_name"
    case LastName => "last_name"
    case Address1 => "address_1"
    case City => "city"
    case State => "state"
    case Postcode => "postcode"
    case Phone => "phone"
  }

  /** The values the form submits. The state selector may hold `null`
      (`None`). */
  datatype FormValues = FormValues(
    firstName: string,
    lastName: string,
    address1: string,
    city: string,
    state: Option<string>,
    postcode: string,
    phone: string)

  /** The schema's preprocessing of the state: `null` becomes "". */
  function StateText(state: Option<string>): string
  {
    match state
    case None => ""
    case Some(s) => s
  }

  /** Matches `s` against the anchored pattern ^\d{lo,hi}$ the way a regular
      expression engine does: one digit consumed per step, succeeding at the
      end of the input once at least `lo` and at most `hi` were consumed. */
  predicate MatchDigits(s: string, lo: nat, hi: nat)
    decreases |s|
  {
    if s == [] then lo == 0
    else hi > 0 && IsDigit(s[0]) && MatchDigits(s[1..], if lo > 0 then lo - 1 else 0, hi - 1)
  }

  /** The pattern ^\d{lo,hi}$ accepts exactly the strings of lo to hi
      characters that are all decimal digits. */
  lemma {:induction false} MatchDigitsIff(s: string, lo: nat, hi: nat)
    ensures MatchDigits(s, lo, hi) <==> lo <= |s| <= hi && AllDigits(s)
    decreases |s|
  {
    if s != [] && hi > 0 {
      MatchDigitsIff(s[1..], if lo > 0 then lo - 1 else 0, hi - 1);
      assert AllDigits(s) <==> IsDigit(s[0]) && AllDigits(s[1..]) by {
        assert forall i :: 1 <= i < |s| ==> s[i] == s[1..][i - 1];
      }
    }
  }

  /** `postcode: /^\d{5}$/`: exactly five decimal digits. */
  function PostcodeValid(s: string): (ok: bool)
    ensures ok <==> |s| == 5 && AllDigits(s)
  {
    MatchDigitsIff(s, 5, 5);
    MatchDigits(s, 5, 5)
  }

  /** `phone: /^\d{10,15}$/`: ten to fifteen decimal digits. */
  function PhoneValid(s: string): (ok: bool)
    ensures ok <==> 10 <= |s| <= 15 && AllDigits(s)
  {
    MatchDigitsIff(s, 10, 15);
    MatchDigits(s, 10, 15)
  }

  /** The schema's fields, in declaration order. */
  const SchemaOrder: seq<Field> := [FirstName, LastName, Address1, City, State, Postcode, Phone]

  /** The schema's check of one field fails. `.min(n)` compares the
      JavaScript length, in UTF-16 code units. */
  predicate FieldFails(v: FormValues, f: Field)
  {
    match f
    case FirstName => Utf16Length(v.firstName) < 1
    case LastName => Utf16Length(v.lastName) < 1
    case Address1 => Utf16Length(v.address1) < 5
    case City => Utf16Length(v.city) < 2
    case State => Utf16Length(StateText(v.state)) < 2
    case Postcode => !PostcodeValid(v.postcode)
    case Phone => !PhoneValid(v.phone)
  }

  /** The failing fields among `fields`, in their order. */
  function Failing(v: FormValues, fields: seq<Field>): (r: seq<Field>)
    ensures forall f :: f in r <==> f in fields && FieldFails(v, f)
    ensures (forall i, j :: 0 <= i < j < |fields| ==> fields[i] != fields[j]) ==>
              forall i, j :: 0 <= i < j < |r| ==> r[i] != r[j]
  {
    if fields == [] then []
    else
      var rest := Failing(v, fields[1..]);
      assert forall i :: 0 <= i < |fields| - 1 ==> fields[1..][i] == fields[i + 1];
      if FieldFails(v, fields[0]) then [fields[0]] + rest else rest
  }

  /** The fields the schema rejects, in schema order, each once. */
  function ValidationErrors(v: FormValues): (errors: seq<Field>)
    ensures FirstName in errors <==> Utf16Length(v.firstName) < 1
    ensures LastName in errors <==> Utf16Length(v.lastName) < 1
    ensures Address1 in errors <==> Utf16Length(v.address1) < 5
    ensures City in errors <==> Utf16Length(v.city) < 2
    ensures State in errors <==> Utf16Length(StateText(v.state)) < 2
    ensures Postcode in errors <==> !(|v.postcode| == 5 && AllDigits(v.postcode))
    ensures Phone in errors <==> !(10 <= |v.phone| <= 15 && AllDigits(v.phone))
    ensures forall i, j :: 0 <= i < j < |errors| ==> errors[i] != errors[j]
  {
    SchemaOrderDistinct();
    FailingSchema(v);
    Failing(v, SchemaOrder)
  }

  /** Every field of the schema is reported iff its own check fails. */
  lemma FailingSchema(v: FormValues)
    ensures forall f :: f in Failing(v, SchemaOrder) <==> FieldFails(v, f)
  {
    forall f: Field ensures f in SchemaOrder {
      match f
      case FirstName => assert SchemaOrder[0] == f;
      case LastName => assert SchemaOrder[1] == f;
      case Address1 => assert SchemaOrder[2] == f;
      case City => assert SchemaOrder[3] == f;
      case State => assert SchemaOrder[4] == f;
      case Postcode => assert SchemaOrder[5] == f;
      case Phone => assert SchemaOrder[6] == f;
    }
  }

  lemma SchemaOrderDistinct()
    ensures forall i, j :: 0 <= i < j < |SchemaOrder| ==> SchemaOrder[i] != SchemaOrder[j]
  {
  }

  /** A null state is never accepted. */
  lemma NullStateRejected(v: FormValues)
    requires v.state == None
    ensures State in ValidationErrors(v)
  {
  }

  /** A city of one emoji passes `.min(2)`: the emoji is two UTF-16 code
      units. */
  lemma OneEmojiCityAccepted(v: FormValues)
    requires v.city == "\U{1F600}"
    ensures City !in ValidationErrors(v)
  {
    assert Utf16Length(v.city) == 2;
  }

  /** The parsed form data: exactly the seven schema fields (the schema drops
      any others), with the state preprocessed. */
  function FormData(v: FormValues): (data: Address)
    ensures data.Keys == set f: Field :: Key(f)
    ensures data[Key(FirstName)] == v.firstName && data[Key(LastName)] == v.lastName
    ensures data[Key(Address1)] == v.address1 && data[Key(City)] == v.city
    ensures data[Key(Postcode)] == v.postcode && data[Key(Phone)] == v.phone
    ensures data[Key(State)] == StateText(v.state)
  {
    map[Key(FirstName) := v.firstName, Key(LastName) := v.lastName,
        Key(Address1) := v.address1, Key(City) := v.city,
        Key(State) := StateText(v.state), Key(Postcode) := v.postcode,
        Key(Phone) := v.phone]
  }

  /** `{ ...stored, ...data }`: the form's fields overwrite, every other
      stored field is kept. */
  function Merge(stored: Address, data: Address): (r: Address)
    ensures r.Keys == stored.Keys + data.Keys
    ensures forall k :: k in data ==> r[k] == data[k]
    ensures forall k :: k in stored && k !in data ==> r[k] == stored[k]
  {
    stored + data
  }

  /** A stored address as the JavaScript object the store holds. */
  function AsJson(a: Address): Json
  {
    Obj(map k | k in a :: Str(a[k]))
  }

  /** `!!shipping.first_name`: present and not the empty string. */
  function HasFirstName(a: Address): (has: bool)
    ensures has <==> Member(AsJson(a), "first_name").Ok? && Truthy(Member(AsJson(a), "first_name").value)
  {
    "first_name" in a && a["first_name"] != ""
  }

  /** Once a valid form is saved, a first name is stored, so the section
      would reopen in DISPLAY. */
  lemma MergedFormHasFirstName(stored: Address, v: FormValues)
    requires ValidationErrors(v) == []
    ensures HasFirstName(Merge(stored, FormData(v)))
  {
    assert FirstName !in ValidationErrors(v);
    assert FormData(v)["first_name"] == v.firstName;
  }

  /** The slices of the checkout store this section reads and writes. Each
      setter replaces its slice wholesale. */
  class CheckoutStore {
    var shipping: Address
    var billing: Address
    var billingSameAsShipping: bool
    var isAnyBlockEditing: bool

    constructor (shipping: Address, billing: Address, billingSameAsShipping: bool, isAnyBlockEditing: bool)
      ensures this.shipping == shipping && this.billing == billing
      ensures this.billingSameAsShipping == billingSameAsShipping
      ensures this.isAnyBlockEditing == isAnyBlockEditing
    {
      this.shipping := shipping;
      this.billing := billing;
      this.billingSameAsShipping := billingSameAsShipping;
      this.isAnyBlockEditing := isAnyBlockEditing;
    }

    /** When billing is the same as shipping, the stored billing is the
        stored shipping. */
    ghost predicate BillingMirrorsShipping()
      reads this
    {
      billingSameAsShipping ==> billing == shipping
    }

    method SetShipping(a: Address)
      modifies this
      ensures shipping == a
      ensures billing == old(billing) && billingSameAsShipping == old(billingSameAsShipping)
      ensures isAnyBlockEditing == old(isAnyBlockEditing)
    {
      shipping := a;
    }

    method SetBilling(a: Address)
      modifies this
      ensures billing == a
      ensures shipping == old(shipping) && billingSameAsShipping == old(billingSameAsShipping)
      ensures isAnyBlockEditing == old(isAnyBlockEditing)
    {
      billing := a;
    }

    method SetBillingSameAsShipping(b: bool)
      modifies this
      ensures billingSameAsShipping == b
      ensures shipping == old(shipping) && billing == old(billing)
      ensures isAnyBlockEditing == old(isAnyBlockEditing)
    {
      billingSameAsShipping := b;
    }

    method SetIsAnyBlockEditing(b: bool)
      modifies this
      ensures isAnyBlockEditing == b
      ensures shipping == old(shipping) && billing == old(billing)
      ensures billingSameAsShipping == old(billingSameAsShipping)
    {
      isAnyBlockEditing := b;
    }
  }

  /** The shipping section: the store it works on and its local editing
      flag (EDITING when true, DISPLAY when false). */
  class ShippingForm {
    const store: CheckoutStore
    var isEditing: bool

    /** The section opens in EDITING exactly when no first name is stored. */
    constructor (store: CheckoutStore)
      ensures this.store == store
      ensures isEditing <==> !HasFirstName(store.shipping)
    {
      this.store := store;
      isEditing := !HasFirstName(store.shipping);
    }

    /** Commits schema-valid form data: the merged address becomes the
        shipping, and the billing too when billing is the same as shipping;
        then the section leaves EDITING and clears the store-wide editing
        flag. */
    method OnSubmit(v: FormValues)
      requires ValidationErrors(v) == []
      modifies this, store
      ensures store.shipping == Merge(old(store.shipping), FormData(v))
      ensures store.billing == if old(store.billingSameAsShipping) then store.shipping else old(store.billing)
      ensures store.billingSameAsShipping == old(store.billingSameAsShipping)
      ensures !isEditing && !store.isAnyBlockEditing
      ensures store.BillingMirrorsShipping()
      ensures HasFirstName(store.shipping)
    {
      var updated := Merge(store.shipping, FormData(v));
      MergedFormHasFirstName(store.shipping, v);
      store.SetShipping(updated);
      if store.billingSameAsShipping {
        store.SetBilling(updated);
      }
      isEditing := false;
      store.SetIsAnyBlockEditing(false);
    }

    /** Submitting the form: an invalid form reports its failing fields and
        changes nothing, staying in EDITING; a valid one is committed. */
    method HandleSubmit(v: FormValues) returns (errors: seq<Field>)
      requires isEditing
      modifies this, store
      ensures errors == ValidationErrors(v)
      ensures errors != [] ==> isEditing && unchanged(store)
      ensures errors == [] ==>
        && store.shipping == Merge(old(store.shipping), FormData(v))
        && store.billing == (if old(store.billingSameAsShipping) then store.shipping else old(store.billing))
        && store.billingSameAsShipping == old(store.billingSameAsShipping)
        && !isEditing && !store.isAnyBlockEditing
    {
      errors := ValidationErrors(v);
      if errors == [] {
        OnSubmit(v);
      }
    }

    /** The Edit button of DISPLAY: back to EDITING, and the store-wide
        editing flag is raised; the addresses are untouched. */
    method Edit()
      requires !isEditing
      modifies this, store
      ensures isEditing && store.isAnyBlockEditing
      ensures store.shipping == old(store.shipping) && store.billing == old(store.billing)
      ensures store.billingSameAsShipping == old(store.billingSameAsShipping)
    {
      isEditing := true;
      store.SetIsAnyBlockEditing(true);
    }

    /** The "billing same as shipping" checkbox: records the new value, and
        checking it copies the stored shipping into billing. */
    method HandleCheckboxChange(checked: bool)
      modifies store
      ensures store.billingSameAsShipping == checked
      ensures store.billing == if checked then old(store.shipping) else old(store.billing)
      ensures store.shipping == old(store.shipping)
      ensures store.isAnyBlockEditing == old(store.isAnyBlockEditing)
      ensures store.BillingMirrorsShipping()
    {
      store.SetBillingSameAsShipping(checked);
      if checked {
        store.SetBilling(store.shipping);
      }
    }
  }
}
