/** The checkout page (ag-gearstore/src/app/checkout/page.tsx): delivery
    zones and their fees, form validation, and `handleCheckout`, which builds
    the payment-initialisation request from the cart and handles its outcome.

    The page's state (form, errors, loading, message, delivery fee) is a
    class; the cart and `localStorage` are the shared objects of modules Cart
    and Browser. The mount effect that fetches the user's profile is not part
    of this model. */
module Checkout {
  import opened Base
  import Api
  import Auth
  import Browser
  import Cart

  // ---------------------------------------------------------------------------
  // Delivery zones

  datatype Zone = Zone(id: string, name: string, fee: int)

  const Zones: seq<Zone> := [
    Zone("lagos-mainland", "Lagos Mainland", 2000),
    Zone("lagos-island", "Lagos Island", 2500),
    Zone("abuja", "Abuja", 3000),
    Zone("port-harcourt", "Port Harcourt", 3500),
    Zone("ibadan", "Ibadan", 2500),
    Zone("kano", "Kano", 4000),
    Zone("other", "Other Cities", 4500)
  ]

  /** `zones.find(z => z.id === id)?.fee ?? 0`. */
  function ZoneFee(zones: seq<Zone>, id: string): int {
    if zones == [] then 0 else if zones[0].id == id then zones[0].fee else ZoneFee(zones[1..], id)
  }

  /** The fee effect: the fee of the selected zone, 0 when none matches. */
  function DeliveryFee(id: string): int {
    ZoneFee(Zones, id)
  }

  predicate Listed(zones: seq<Zone>, id: string) {
    exists i :: 0 <= i < |zones| && zones[i].id == id
  }

  lemma {:induction false} ZoneFeeZeroIffUnlisted(zones: seq<Zone>, id: string)
    requires forall i :: 0 <= i < |zones| ==> zones[i].fee > 0
    ensures ZoneFee(zones, id) == 0 <==> !Listed(zones, id)
    ensures Listed(zones, id) ==> exists i :: 0 <= i < |zones| && zones[i].id == id && ZoneFee(zones, id) == zones[i].fee
  {
    if zones != [] && zones[0].id != id {
      var tail := zones[1..];
      ZoneFeeZeroIffUnlisted(tail, id);
      if Listed(zones, id) {
        var i :| 0 <= i < |zones| && zones[i].id == id;
        assert tail[i - 1] == zones[i];
      }
      if Listed(tail, id) {
        var i :| 0 <= i < |tail| && tail[i].id == id && ZoneFee(tail, id) == tail[i].fee;
        assert zones[i + 1] == tail[i];
      }
    }
  }

  /** The fee is 0 exactly when no zone has the selected id (the empty
      selection included); otherwise it is the fee of a zone with that id. */
  lemma DeliveryFeeZeroIffUnlisted(id: string)
    ensures DeliveryFee(id) == 0 <==> !Listed(Zones, id)
    ensures DeliveryFee("") == 0
    ensures Listed(Zones, id) ==> exists i :: 0 <= i < |Zones| && Zones[i].id == id && DeliveryFee(id) == Zones[i].fee
  {
    ZoneFeeZeroIffUnlisted(Zones, id);
    ZoneFeeZeroIffUnlisted(Zones, "");
  }

  /** Each listed zone's own id selects its own fee. */
  lemma ListedZoneFees()
    ensures forall i :: 0 <= i < |Zones| ==> DeliveryFee(Zones[i].id) == Zones[i].fee
    ensures DeliveryFee("lagos-mainland") == 2000 && DeliveryFee("other") == 4500
  {
  }

  /** "Proceed" is enabled only when no request is in flight and the fee is
      not 0, that is only once a listed zone is selected. */
  predicate ProceedEnabled(loading: bool, fee: int) {
    !loading && fee != 0
  }

  lemma ProceedNeedsListedZone(loading: bool, zone: string)
    ensures ProceedEnabled(loading, DeliveryFee(zone)) <==> !loading && Listed(Zones, zone)
  {
    DeliveryFeeZeroIffUnlisted(zone);
  }

  // ---------------------------------------------------------------------------
  // The form and its validation

  datatype Field = FirstName | LastName | Email | Phone | Address | City | State | DeliveryZone | AdditionalInfo

  datatype Form = Form(firstName: string, lastName: string, email: string, phone: string, address: string,
                       city: string, state: string, deliveryZone: string, additionalInfo: string)
  {
    function Get(f: Field): string {
      match f
      case FirstName => firstName
      case LastName => lastName
      case Email => email
      case Phone => phone
      case Address => address
      case City => city
      case State => state
      case DeliveryZone => deliveryZone
      case AdditionalInfo => additionalInfo
    }

    /** `{...prev, [f]: v}`. */
    function With(f: Field, v: string): (r: Form)
      ensures r.Get(f) == v
      ensures forall g :: g != f ==> r.Get(g) == Get(g)
    {
      Form(if f == FirstName then v else firstName,
           if f == LastName then v else lastName,
           if f == Email then v else email,
           if f == Phone then v else phone,
           if f == Address then v else address,
           if f == City then v else city,
           if f == State then v else state,
           if f == DeliveryZone then v else deliveryZone,
           if f == AdditionalInfo then v else additionalInfo)
    }
  }

  const EmptyForm := Form("", "", "", "", "", "", "", "", "")

  /** A piece of an address between separators: at least one character, none
      of them whitespace or '@' (`[^\s@]+`). */
  predicate EmailPart(s: string) {
    |s| >= 1 && forall i :: 0 <= i < |s| ==> !IsSpace(s[i]) && s[i] != '@'
  }

  /** `/^[^\s@]+@[^\s@]+\.[^\s@]+$/`: local part, '@', a domain part, '.',
      and a last part. The domain part may itself contain dots. */
  predicate EmailShape(s: string) {
    exists at: nat, dot: nat :: at + 1 < dot < |s| - 1 && s[at] == '@' && s[dot] == '.' &&
      EmailPart(s[..at]) && EmailPart(s[at + 1..dot]) && EmailPart(s[dot + 1..])
  }

  /** No address with whitespace anywhere (leading or trailing included, the
      test is on the untrimmed value), none without '@', none with two '@'
      and none without a '.' after its '@' (such as "a@b") has the shape. */
  lemma EmailShapeRejects(s: string)
    ensures (exists i :: 0 <= i < |s| && IsSpace(s[i])) ==> !EmailShape(s)
    ensures (forall i :: 0 <= i < |s| ==> s[i] != '@') ==> !EmailShape(s)
    ensures (exists i, j :: 0 <= i < j < |s| && s[i] == '@' && s[j] == '@') ==> !EmailShape(s)
    ensures (forall i, j :: 0 <= i < j < |s| && s[i] == '@' ==> s[j] != '.') ==> !EmailShape(s)
  {
    if EmailShape(s) {
      var at: nat, dot: nat :| at + 1 < dot < |s| - 1 && s[at] == '@' && s[dot] == '.' &&
        EmailPart(s[..at]) && EmailPart(s[at + 1..dot]) && EmailPart(s[dot + 1..]);
      forall i | 0 <= i < |s| ensures !IsSpace(s[i]) && (s[i] == '@' ==> i == at) {
        EmailChar(s, at, dot, i);
      }
    }
  }

  /** Every character of a well-shaped address other than its '@' comes from
      one of the three parts. */
  lemma EmailChar(s: string, at: nat, dot: nat, i: int)
    requires at + 1 < dot < |s| - 1 && s[at] == '@' && s[dot] == '.'
    requires EmailPart(s[..at]) && EmailPart(s[at + 1..dot]) && EmailPart(s[dot + 1..])
    requires 0 <= i < |s|
    ensures !IsSpace(s[i]) && (s[i] == '@' ==> i == at)
  {
    if i < at {
      assert s[..at][i] == s[i];
    } else if at < i < dot {
      assert s[at + 1..dot][i - at - 1] == s[i];
    } else if dot < i {
      assert s[dot + 1..][i - dot - 1] == s[i];
    }
  }

  /** Any local part, '@', domain part, '.' and last part make an address
      of the accepted shape. */
  lemma EmailShapeIntro(local: string, domain: string, last: string)
    requires EmailPart(local) && EmailPart(domain) && EmailPart(last)
    ensures EmailShape(local + "@" + domain + "." + last)
  {
    var s := local + "@" + domain + "." + last;
    var at, dot := |local|, |local| + 1 + |domain|;
    assert s[..at] == local;
    assert s[at + 1..dot] == domain;
    assert s[dot + 1..] == last;
    assert s[at] == '@' && s[dot] == '.';
  }

  /** `phone.replace(/[\s-]/g, '')`. */
  function StripPhone(s: string): (r: string)
    ensures |r| <= |s|
    ensures forall i :: 0 <= i < |r| ==> !IsSpace(r[i]) && r[i] != '-'
  {
    if s == [] then []
    else (if IsSpace(s[0]) || s[0] == '-' then [] else [s[0]]) + StripPhone(s[1..])
  }

  /** `/^[0-9]{10,11}$/` on the stripped number. */
  predicate PhoneShape(s: string) {
    var d := StripPhone(s);
    10 <= |d| <= 11 && AllDigits(d)
  }

  lemma {:induction false} StripPhoneAppend(a: string, b: string)
    ensures StripPhone(a + b) == StripPhone(a) + StripPhone(b)
  {
    if a != [] {
      assert (a + b)[1..] == a[1..] + b;
      StripPhoneAppend(a[1..], b);
    } else {
      assert a + b == b;
    }
  }

  lemma {:induction false} StripPhoneKeepsDigits(s: string)
    requires AllDigits(s)
    ensures StripPhone(s) == s
  {
    if s != [] {
      assert IsDigit(s[0]) && !IsSpace(s[0]);
      StripPhoneKeepsDigits(s[1..]);
      assert s == [s[0]] + s[1..];
    }
  }

  /** A number written only with digits is valid exactly when it has 10 or
      11 of them; a hyphen or a whitespace character between two groups does
      not change validity. */
  lemma PhoneShapeRules(s: string, a: string, b: string, sep: char)
    requires sep == '-' || IsSpace(sep)
    ensures AllDigits(s) ==> (PhoneShape(s) <==> 10 <= |s| <= 11)
    ensures PhoneShape(a + [sep] + b) <==> PhoneShape(a + b)
  {
    if AllDigits(s) {
      StripPhoneKeepsDigits(s);
    }
    StripPhoneAppend(a + [sep], b);
    StripPhoneAppend(a, [sep]);
    StripPhoneAppend(a, b);
    assert StripPhone([sep]) == [] by {
      assert [sep][1..] == [];
    }
    assert StripPhone(a + [sep]) == StripPhone(a);
  }

  const InvalidFormMessage := "❌ Please fill in all required fields correctly"

  /** The message for a field left empty. */
  function RequiredMessage(f: Field): string {
    match f
    case FirstName => "First name is required"
    case LastName => "Last name is required"
    case Email => "Email is required"
    case Phone => "Phone number is required"
    case Address => "Delivery address is required"
    case City => "City is required"
    case State => "State is required"
    case DeliveryZone => "Please select a delivery zone"
    case AdditionalInfo => ""
  }

  /** `!value.trim()`. */
  predicate TrimsToEmpty(s: string) {
    Trim(s) == ""
  }

  /** The rule `validateForm` applies to one field: the error it records for
      it, if any. */
  function FieldError(form: Form, f: Field): Option<string> {
    match f
    case Email =>
      if TrimsToEmpty(form.email) then Some(RequiredMessage(Email))
      else if !EmailShape(form.email) then Some("Invalid email format")
      else None
    case Phone =>
      if TrimsToEmpty(form.phone) then Some(RequiredMessage(Phone))
      else if !PhoneShape(form.phone) then Some("Invalid phone number")
      else None
    case DeliveryZone =>
      if form.deliveryZone == "" then Some(RequiredMessage(DeliveryZone)) else None
    case AdditionalInfo => None
    case _ =>
      if TrimsToEmpty(form.Get(f)) then Some(RequiredMessage(f)) else None
  }

  const AllFields: set<Field> := {FirstName, LastName, Email, Phone, Address, City, State, DeliveryZone, AdditionalInfo}

  /** `validateForm`'s `newErrors`: one entry per field whose rule fails. */
  function Validate(form: Form): map<Field, string> {
    map f | f in AllFields && FieldError(form, f).Some? :: FieldError(form, f).value
  }

  /** A field that must hold something other than whitespace. */
  predicate Required(f: Field) {
    f == FirstName || f == LastName || f == Address || f == City || f == State
  }

  lemma InAllFields(f: Field)
    ensures f in AllFields
  {
  }

  /** First name, last name, address, city and state are in error exactly
      when blank, with their "required" message. */
  lemma ValidateRequired(form: Form, f: Field)
    requires Required(f)
    ensures f in Validate(form) <==> Blank(form.Get(f))
    ensures f in Validate(form) ==> Validate(form)[f] == RequiredMessage(f)
  {
    InAllFields(f);
    TrimEmptyIffBlank(form.Get(f));
  }

  /** Email: "Email is required" when blank, else "Invalid email format"
      unless it has the address shape. */
  lemma ValidateEmail(form: Form)
    ensures Blank(form.email) ==> Email in Validate(form) && Validate(form)[Email] == "Email is required"
    ensures !Blank(form.email) && !EmailShape(form.email) ==>
      Email in Validate(form) && Validate(form)[Email] == "Invalid email format"
    ensures Email !in Validate(form) <==> EmailShape(form.email)
  {
    InAllFields(Email);
    TrimEmptyIffBlank(form.email);
    EmailShapeRejects(form.email);
  }

  /** Phone: "Phone number is required" when blank, else "Invalid phone
      number" unless stripping whitespace and '-' leaves 10 or 11 digits. */
  lemma ValidatePhone(form: Form)
    ensures Blank(form.phone) ==> Phone in Validate(form) && Validate(form)[Phone] == "Phone number is required"
    ensures !Blank(form.phone) && !PhoneShape(form.phone) ==>
      Phone in Validate(form) && Validate(form)[Phone] == "Invalid phone number"
    ensures Phone !in Validate(form) <==> PhoneShape(form.phone)
  {
    InAllFields(Phone);
    TrimEmptyIffBlank(form.phone);
    if PhoneShape(form.phone) && Blank(form.phone) {
      BlankStripsEmpty(form.phone);
    }
  }

  lemma {:induction false} BlankStripsEmpty(s: string)
    requires Blank(s)
    ensures StripPhone(s) == []
  {
    if s != [] {
      assert IsSpace(s[0]);
      BlankStripsEmpty(s[1..]);
    }
  }

  /** The zone is in error only when nothing is selected: it is not checked
      against the zone table. Additional information is never checked. */
  lemma ValidateZoneAndExtra(form: Form)
    ensures DeliveryZone in Validate(form) <==> form.deliveryZone == ""
    ensures DeliveryZone in Validate(form) ==> Validate(form)[DeliveryZone] == "Please select a delivery zone"
    ensures AdditionalInfo !in Validate(form)
  {
    InAllFields(DeliveryZone);
  }

  /** What each field must satisfy for `validateForm` to pass it. */
  predicate FieldOk(form: Form, f: Field) {
    match f
    case Email => EmailShape(form.email)
    case Phone => PhoneShape(form.phone)
    case DeliveryZone => form.deliveryZone != ""
    case AdditionalInfo => true
    case _ => !Blank(form.Get(f))
  }

  /** The form is complete: every field satisfies its rule. */
  predicate Complete(form: Form) {
    forall f :: FieldOk(form, f)
  }

  /** Complete, field by field: every required field non-blank, the email and
      phone well-formed, and a zone selected. */
  lemma CompleteMeans(form: Form)
    ensures Complete(form) <==>
      && !Blank(form.firstName) && !Blank(form.lastName) && EmailShape(form.email) && PhoneShape(form.phone)
      && !Blank(form.address) && !Blank(form.city) && !Blank(form.state) && form.deliveryZone != ""
  {
    if !Complete(form) {
      var f :| !FieldOk(form, f);
    } else {
      assert FieldOk(form, FirstName) && FieldOk(form, LastName) && FieldOk(form, Email) && FieldOk(form, Phone);
      assert FieldOk(form, Address) && FieldOk(form, City) && FieldOk(form, State) && FieldOk(form, DeliveryZone);
    }
  }

  /** A field's rule records no error exactly when the field is ok. */
  lemma FieldRule(form: Form, f: Field)
    ensures FieldError(form, f).None? <==> FieldOk(form, f)
  {
    TrimEmptyIffBlank(form.Get(f));
    match f {
      case Email => EmailShapeRejects(form.email);
      case Phone =>
        if Blank(form.phone) {
          BlankStripsEmpty(form.phone);
        }
      case _ =>
    }
  }

  /** No error is recorded exactly when every field's rule passes. */
  lemma NoErrorsIff(form: Form)
    ensures |Validate(form)| == 0 <==> forall f :: FieldError(form, f).None?
  {
    if forall f :: FieldError(form, f).None? {
      assert Validate(form).Keys == {};
    } else {
      var f :| FieldError(form, f).Some?;
      InAllFields(f);
      assert f in Validate(form);
    }
  }

  /** `validateForm` returns true (no error recorded) exactly for complete
      forms. */
  lemma ValidIffComplete(form: Form)
    ensures |Validate(form)| == 0 <==> Complete(form)
  {
    NoErrorsIff(form);
    forall f ensures FieldError(form, f).None? <==> FieldOk(form, f) {
      FieldRule(form, f);
    }
  }

  /** A complete form may still name an unlisted zone; its fee is then 0 and
      "Proceed" stays disabled. */
  lemma UnlistedZonePassesValidation(form: Form)
    requires Complete(form) && !Listed(Zones, form.deliveryZone)
    ensures |Validate(form)| == 0 && DeliveryFee(form.deliveryZone) == 0
    ensures !ProceedEnabled(false, DeliveryFee(form.deliveryZone))
  {
    ValidIffComplete(form);
    DeliveryFeeZeroIffUnlisted(form.deliveryZone);
  }

  // ---------------------------------------------------------------------------
  // The payment-initialisation request and its outcome

  /** `{variant_id, quantity}` for one cart line. */
  datatype CartLine = CartLine(variantId: int, quantity: int)

  /** `items.map(...)` to `{variant_id, quantity}`. */
  function CartLines(items: seq<Cart.CartItem>): (r: seq<CartLine>)
    ensures |r| == |items|
  {
    if items == [] then [] else [CartLine(items[0].variantId, items[0].quantity)] + CartLines(items[1..])
  }

  /** Line `i` of the payload carries line `i`'s variant and quantity. */
  lemma {:induction false} CartLinesInOrder(items: seq<Cart.CartItem>)
    ensures forall i :: 0 <= i < |items| ==>
      CartLines(items)[i].variantId == items[i].variantId && CartLines(items)[i].quantity == items[i].quantity
  {
    if items != [] {
      CartLinesInOrder(items[1..]);
      forall i | 1 <= i < |items|
        ensures CartLines(items)[i] == CartLines(items[1..])[i - 1]
      {
      }
    }
  }

  /** `customer_info` of the request: eight of the form's fields under
      snake_case keys (`first_name`, `last_name`, `phone`, `address`,
      `city`, `state`, `delivery_zone`, `additional_info`); the email is
      sent once, at the top level, and not here. */
  datatype CustomerInfo = CustomerInfo(firstName: string, lastName: string, phone: string, address: string,
                                       city: string, state: string, deliveryZone: string, additionalInfo: string)
  {
    /** The value under a field's key; None for the email, which has none. */
    function Get(f: Field): Option<string> {
      match f
      case FirstName => Some(firstName)
      case LastName => Some(lastName)
      case Email => None
      case Phone => Some(phone)
      case Address => Some(address)
      case City => Some(city)
      case State => Some(state)
      case DeliveryZone => Some(deliveryZone)
      case AdditionalInfo => Some(additionalInfo)
    }
  }

  /** The `customer_info` object built from the form. */
  function CustomerInfoOf(form: Form): (c: CustomerInfo)
    ensures forall f :: f != Email ==> c.Get(f) == Some(form.Get(f))
    ensures c.Get(Email) == None
  {
    CustomerInfo(form.firstName, form.lastName, form.phone, form.address,
                 form.city, form.state, form.deliveryZone, form.additionalInfo)
  }

  /** `customer_info` does not depend on the email, and two forms give the
      same `customer_info` only when they agree on every other field. */
  lemma CustomerInfoOmitsEmail(form: Form, other: Form, v: string)
    ensures CustomerInfoOf(form.With(Email, v)) == CustomerInfoOf(form)
    ensures CustomerInfoOf(form) == CustomerInfoOf(other) <==> forall f :: f != Email ==> form.Get(f) == other.Get(f)
  {
    if forall f :: f != Email ==> form.Get(f) == other.Get(f) {
      assert form.Get(FirstName) == other.Get(FirstName) && form.Get(LastName) == other.Get(LastName);
      assert form.Get(Phone) == other.Get(Phone) && form.Get(Address) == other.Get(Address);
      assert form.Get(City) == other.Get(City) && form.Get(State) == other.Get(State);
      assert form.Get(DeliveryZone) == other.Get(DeliveryZone) && form.Get(AdditionalInfo) == other.Get(AdditionalInfo);
    }
  }

  /** The JSON body: email, cart lines, delivery fee and `customer_info`. */
  datatype InitPayload = InitPayload(email: string, cartItems: seq<CartLine>, deliveryFee: int, customerInfo: CustomerInfo)

  datatype InitRequest = InitRequest(headers: seq<Api.Header>, payload: InitPayload)

  const InitializePath := "/api/store/payment/initialize/"

  /** `result.data` of a successful initialisation. */
  datatype InitData = InitData(reference: string, orderId: string, amount: real, authorizationUrl: string)

  /** A parsed reply body: `status` (its truthiness), `data`, `message`,
      `error`. */
  datatype InitBody = InitBody(status: bool, data: Option<InitData>, message: Option<string>, error: Option<string>)

  /** The request threw, or came back with `response.ok` and a body that
      parsed (Some) or did not (None). */
  datatype InitReply = InitThrown | InitReplied(ok: bool, body: Option<InitBody>)

  /** The record kept under `pending_order` for the callback page. */
  datatype PendingOrder = PendingOrder(reference: string, orderId: string, amount: real, customerInfo: Form)

  const PendingOrderKey := "pending_order"
  const NetworkErrorMessage := "❌ Network error - please try again"

  /** The reply starts a payment: ok, with truthy `status` and `data`. */
  predicate Started(reply: InitReply) {
    reply.InitReplied? && reply.ok && reply.body.Some? && reply.body.value.status && reply.body.value.data.Some?
  }

  /** How the mount effect ended: it threw (with the error's message), or
      it ran and decided whether to send the shopper back to the cart and
      whether to fetch the profile. */
  datatype MountResult = MountThrew(error: string) | MountRan(redirectToCart: bool, fetchProfile: bool)

  const IsAuthenticatedUnbound := "isAuthenticated is not defined"

  class CheckoutPage {
    var form: Form
    var authenticated: bool
    var errors: map<Field, string>
    var loading: bool
    var message: string
    var deliveryFee: int
    const cart: Cart.CartStore
    const encodePending: PendingOrder -> string

    /** The fee effect has run for the current zone. */
    ghost predicate FeeInSync()
      reads this
    {
      deliveryFee == DeliveryFee(form.deliveryZone)
    }

    constructor (cart: Cart.CartStore, encodePending: PendingOrder -> string)
      ensures this.cart == cart && this.encodePending == encodePending
      ensures form == EmptyForm && errors == map[] && !loading && message == "" && deliveryFee == 0
      ensures FeeInSync() && !ProceedEnabled(loading, deliveryFee) && !authenticated
    {
      authenticated := false;
      this.cart := cart;
      this.encodePending := encodePending;
      form := EmptyForm;
      errors := map[];
      loading := false;
      message := "";
      deliveryFee := 0;
    }

    /** The mount effect, with `isAuthenticated` bound to the auth library's
        function: it records whether the shopper is signed in, sends an
        empty cart back to the cart page, and fetches the profile only for
        a signed-in shopper. The form is left to the profile reply. */
    method Mount() returns (effect: MountResult)
      modifies this
      ensures authenticated <==> Auth.IsAuthenticated(cart.storage, true)
      ensures effect.MountRan?
      ensures effect.redirectToCart <==> |cart.items| == 0
      ensures effect.fetchProfile <==> authenticated
      ensures form == old(form) && errors == old(errors) && loading == old(loading)
      ensures message == old(message) && deliveryFee == old(deliveryFee)
    {
      authenticated := Auth.IsAuthenticated(cart.storage, true);
      effect := MountRan(|cart.items| == 0, authenticated);
    }

    /** The mount effect as the file is written: `isAuthenticated` is not
        imported, so its first statement throws a ReferenceError outside any
        `try`. Nothing is set, the empty-cart redirect and the profile fetch
        never happen, and the error escapes the effect on the page's first
        render, before any form can be submitted. */
    method MountAsWritten() returns (effect: MountResult)
      ensures effect == MountThrew(IsAuthenticatedUnbound)
      ensures !effect.MountRan?
    {
      effect := MountThrew(IsAuthenticatedUnbound);
    }

    /** `handleInputChange` and the fee effect it triggers: only field `f`
        changes, and only `f`'s error is cleared (to the empty string, when
        it was set). */
    method HandleInputChange(f: Field, v: string)
      modifies this
      ensures form == old(form).With(f, v)
      ensures authenticated == old(authenticated)
      ensures errors == if f in old(errors) && old(errors)[f] != "" then old(errors)[f := ""] else old(errors)
      ensures deliveryFee == DeliveryFee(form.deliveryZone) && FeeInSync()
      ensures loading == old(loading) && message == old(message)
    {
      form := form.With(f, v);
      if f in errors && errors[f] != "" {
        errors := errors[f := ""];
      }
      deliveryFee := DeliveryFee(form.deliveryZone);
    }

    /** `validateForm`: records the errors and reports whether there were
        none. */
    method ValidateForm() returns (ok: bool)
      modifies this
      ensures errors == Validate(form) && (ok <==> Complete(form))
      ensures form == old(form) && loading == old(loading) && message == old(message) && deliveryFee == old(deliveryFee)
      ensures authenticated == old(authenticated)
    {
      errors := Validate(form);
      ValidIffComplete(form);
      ok := |errors| == 0;
    }

    /** `handleCheckout` with the session token read from storage. Nothing
        is sent for an empty cart or an invalid form; otherwise the request
        carries the email, the cart lines in order, the fee and the
        form's other eight fields as `customer_info` (the whole form is
        what `pending_order` keeps), and the
        outcome decides the message and whether `pending_order` is written.
        No path clears the cart, and `loading` is false afterwards. */
    method HandleCheckout(reply: InitReply) returns (request: Option<InitRequest>, redirect: Option<string>)
      modifies this, cart.storage
      ensures cart.items == old(cart.items)
      ensures form == old(form) && deliveryFee == old(deliveryFee) && authenticated == old(authenticated)
      ensures |cart.items| == 0 ==>
        request == None && redirect == None && errors == old(errors) && message == old(message) &&
        loading == old(loading) && cart.storage.entries == old(cart.storage.entries)
      ensures |cart.items| > 0 ==> errors == Validate(form)
      ensures |cart.items| > 0 && !Complete(form) ==>
        request == None && redirect == None && message == InvalidFormMessage &&
        loading == old(loading) && cart.storage.entries == old(cart.storage.entries)
      ensures |cart.items| > 0 && Complete(form) ==>
        && request == Some(InitRequest(Api.DefaultHeaders(old(Auth.GetToken(cart.storage, true))),
                                       InitPayload(form.email, CartLines(cart.items), deliveryFee, CustomerInfoOf(form))))
        && !loading
      ensures Started(reply) && request.Some? ==>
        var data := reply.body.value.data.value;
        && redirect == Some(data.authorizationUrl) && message == ""
        && cart.storage.entries == old(cart.storage.entries)[PendingOrderKey :=
             encodePending(PendingOrder(data.reference, data.orderId, data.amount, form))]
      ensures !(Started(reply) && request.Some?) ==> redirect == None && cart.storage.entries == old(cart.storage.entries)
      ensures request.Some? && (reply.InitThrown? || reply.body.None?) ==> message == NetworkErrorMessage
      ensures request.Some? && reply.InitReplied? && reply.ok && reply.body.Some? && !Started(reply) ==>
        message == "❌ " + OrElse(reply.body.value.message, "Payment initialization failed")
      ensures request.Some? && reply.InitReplied? && !reply.ok && reply.body.Some? ==>
        message == "❌ Error: " + OrElse(reply.body.value.error, OrElse(reply.body.value.message, "Payment initialization failed"))
    {
      request, redirect := None, None;
      if |cart.items| == 0 {
        return;
      }
      var ok := ValidateForm();
      if !ok {
        message := InvalidFormMessage;
        return;
      }
      loading := true;
      message := "";
      var payload := InitPayload(form.email, CartLines(cart.items), deliveryFee, CustomerInfoOf(form));
      var token := Auth.GetToken(cart.storage, true);
      request := Some(InitRequest(Api.DefaultHeaders(token), payload));
      match reply {
        case InitThrown =>
          message := NetworkErrorMessage;
        case InitReplied(responseOk, body) =>
          if body.None? {
            message := NetworkErrorMessage;
          } else if responseOk {
            var result := body.value;
            if result.status && result.data.Some? {
              var data := result.data.value;
              cart.storage.SetItem(PendingOrderKey, encodePending(PendingOrder(data.reference, data.orderId, data.amount, form)));
              redirect := Some(data.authorizationUrl);
            } else {
              message := "❌ " + OrElse(result.message, "Payment initialization failed");
            }
          } else {
            var error := body.value;
            message := "❌ Error: " + OrElse(error.error, OrElse(error.message, "Payment initialization failed"));
          }
      }
      loading := false;
    }

    /** `handleCheckout` as the file is written: `getToken` is called but
        never imported, so the call throws a ReferenceError inside the `try`
        and every checkout of a valid form ends with the network-error
        message, without a request and without `pending_order`. This is
        the handler on its own; on the page as written the mount effect
        has already thrown (`MountAsWritten`), so a shopper meets that
        failure first. */
    method HandleCheckoutAsWritten() returns (request: Option<InitRequest>)
      modifies this
      ensures request == None
      ensures form == old(form) && deliveryFee == old(deliveryFee) && authenticated == old(authenticated)
      ensures |cart.items| > 0 ==> errors == Validate(form)
      ensures |cart.items| > 0 && !Complete(form) ==> message == InvalidFormMessage && loading == old(loading)
      ensures |cart.items| > 0 && Complete(form) ==> message == NetworkErrorMessage && !loading
      ensures |cart.items| == 0 ==> message == old(message) && errors == old(errors) && loading == old(loading)
    {
      request := None;
      if |cart.items| == 0 {
        return;
      }
      var ok := ValidateForm();
      if !ok {
        message := InvalidFormMessage;
        return;
      }
      loading := true;
      message := "";
      // the unbound `getToken` throws here; the catch sets the message
      message := NetworkErrorMessage;
      loading := false;
    }
  }
}
