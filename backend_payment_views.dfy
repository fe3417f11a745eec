/** The payment views of the backend
    (gearstore_backend/store/views_payment.py): initializing a Paystack
    payment for a posted cart, verifying a payment by reference, and the
    webhook acknowledgement. The gateway exchange is a
    `Paystack.Transport` parameter; the two fresh UUID digests are
    parameters too. */
module PaymentViews {
  import opened Base
  import StoreViews
  import Paystack

  type Json = Paystack.Json

  /** The dollar-to-naira factor the view applies to catalogue prices. */
  const NairaPerDollar: real := 1600.0

  // ---------------------------------------------------------------------------
  // Pricing

  /** `float(price) * 1600`. */
  function PriceNaira(v: StoreViews.Variant): real {
    StoreViews.UnitPrice(v) * NairaPerDollar
  }

  /** The naira subtotal the loop accumulates. */
  function NairaSubtotal(lines: seq<StoreViews.CartLine>): real {
    if lines == [] then 0.0
    else NairaSubtotal(lines[..|lines| - 1]) + PriceNaira(lines[|lines| - 1].variant) * (lines[|lines| - 1].quantity as real)
  }

  /** The payment subtotal is the authenticated checkout's dollar total
      converted at the fixed rate. */
  lemma {:induction false} NairaSubtotalIsConverted(lines: seq<StoreViews.CartLine>)
    ensures NairaSubtotal(lines) == NairaPerDollar * StoreViews.OrderTotal(lines)
  {
    if lines != [] {
      NairaSubtotalIsConverted(lines[..|lines| - 1]);
    }
  }

  /** One entry of `items_data`. */
  function ItemJson(productName: string, size: string, quantity: int, price: real, subtotal: real): Json {
    Paystack.Object(map["product_name" := Paystack.Str(productName), "size" := Paystack.Str(size),
                        "quantity" := Paystack.Num(quantity as real), "price" := Paystack.Num(price),
                        "subtotal" := Paystack.Num(subtotal)])
  }

  function LineJson(l: StoreViews.CartLine): Json {
    ItemJson(l.variant.productName, l.variant.size, l.quantity, PriceNaira(l.variant),
             PriceNaira(l.variant) * (l.quantity as real))
  }

  /** `items_data`: one entry per cart line, in order. */
  function ItemsData(lines: seq<StoreViews.CartLine>): (d: seq<Json>)
    ensures |d| == |lines|
    ensures forall i :: 0 <= i < |lines| ==> d[i] == LineJson(lines[i])
  {
    if lines == [] then [] else ItemsData(lines[..|lines| - 1]) + [LineJson(lines[|lines| - 1])]
  }

  /** One turn of the pricing loop: the prefix one line longer adds that
      line's naira subtotal and its `items_data` entry. */
  lemma PricedStep(lines: seq<StoreViews.CartLine>, i: nat)
    requires i < |lines|
    ensures var l := lines[i];
      && NairaSubtotal(lines[..i + 1]) == NairaSubtotal(lines[..i]) + PriceNaira(l.variant) * (l.quantity as real)
      && ItemsData(lines[..i + 1]) == ItemsData(lines[..i]) +
           [ItemJson(l.variant.productName, l.variant.size, l.quantity, PriceNaira(l.variant),
                     PriceNaira(l.variant) * (l.quantity as real))]
  {
    var next := lines[..i + 1];
    assert next[..i] == lines[..i] && next[i] == lines[i];
    assert ItemsData(next) == ItemsData(lines[..i]) + [LineJson(lines[i])];
  }

  // ---------------------------------------------------------------------------
  // InitializePaymentView.post

  /** The fields of the posted body the view reads; a missing
      `delivery_fee` or `customer_info` is None. */
  datatype InitRequest = InitRequest(email: Option<string>, cartItems: seq<StoreViews.RawItem>,
                                     deliveryFee: Option<real>, customerInfo: Option<Json>)

  datatype User = Anonymous | SignedIn(id: int, username: string)

  /** The metadata sent with the payment. */
  function Metadata(orderId: string, lines: seq<StoreViews.CartLine>, email: string, customerInfo: Json,
                    subtotal: real, deliveryFee: real, total: real, user: User): map<string, Json>
  {
    var base := map["order_id" := Paystack.Str(orderId), "items" := Paystack.List(ItemsData(lines)),
                    "customer_email" := Paystack.Str(email), "customer_info" := customerInfo,
                    "subtotal" := Paystack.Num(subtotal), "delivery_fee" := Paystack.Num(deliveryFee),
                    "total" := Paystack.Num(total)];
    if user.SignedIn? then base["user_id" := Paystack.Num(user.id as real)]["username" := Paystack.Str(user.username)]
    else base
  }

  /** The metadata always carries the order, its items and the amounts, and
      carries the user's id and name exactly when the caller is signed in. */
  lemma MetadataKeys(orderId: string, lines: seq<StoreViews.CartLine>, email: string, customerInfo: Json,
                     subtotal: real, deliveryFee: real, total: real, user: User)
    ensures var m := Metadata(orderId, lines, email, customerInfo, subtotal, deliveryFee, total, user);
      && {"order_id", "items", "customer_email", "customer_info", "subtotal", "delivery_fee", "total"} <= m.Keys
      && ("user_id" in m <==> user.SignedIn?)
      && ("username" in m <==> user.SignedIn?)
      && m["items"] == Paystack.List(ItemsData(lines))
      && m["total"] == Paystack.Num(total)
      && m != map[]
  {
  }

  /** The metadata dictionary as the view assembles it: the fixed entries,
      then the user's id and name for a signed-in caller. */
  method BuildMetadata(orderId: string, lines: seq<StoreViews.CartLine>, itemsData: seq<Json>, email: string,
                       customerInfo: Json, subtotal: real, deliveryFee: real, total: real, user: User)
    returns (metadata: map<string, Json>)
    requires itemsData == ItemsData(lines)
    ensures metadata == Metadata(orderId, lines, email, customerInfo, subtotal, deliveryFee, total, user)
  {
    metadata := map["order_id" := Paystack.Str(orderId), "items" := Paystack.List(itemsData),
                    "customer_email" := Paystack.Str(email), "customer_info" := customerInfo,
                    "subtotal" := Paystack.Num(subtotal), "delivery_fee" := Paystack.Num(deliveryFee),
                    "total" := Paystack.Num(total)];
    if user.SignedIn? {
      metadata := metadata["user_id" := Paystack.Num(user.id as real)];
      metadata := metadata["username" := Paystack.Str(user.username)];
    }
  }

  /** The view's answers, one constructor per `Response`. */
  datatype InitReply =
    | EmailRequired
    | InvalidItems(errors: seq<StoreViews.ItemErrors>)
    | OutOfStock(error: string)
    | Initialized(authorizationUrl: Json, accessCode: Json, reference: string, orderId: string, amount: real)
    | Declined(message: Json)
    | ServiceError(error: string)
  {
    function Code(): int {
      match this
      case Initialized(_, _, _, _, _) => 200
      case ServiceError(_) => 500
      case _ => 400
    }
  }

  const DeclinedDefault := "Payment initialization failed"

  /** The fixed `message` of the 500 answer; its `error` is `str(e)` of the
      exception caught. */
  const ServiceErrorMessage := "Payment service error. Please check your Paystack configuration."

  /** `str(e)` of the KeyError a missing key raises: the key's repr. */
  function KeyErrorText(key: string): string {
    "'" + key + "'"
  }

  /** The answer once `initialize_transaction` has returned or raised
      (`call`). An exception is a 500 carrying its text. A truthy `status`
      needs `data.authorization_url` and `data.access_code`, read in that
      order: a missing key raises a KeyError and a `data` that is not a
      dictionary raises a TypeError (`subscriptError` gives its text), both
      answered with a 500. A falsy `status` passes on the gateway's
      `message`. */
  function GatewayOutcome(call: Result<map<string, Json>>, reference: string, orderId: string, total: real,
                          subscriptError: Json -> string): InitReply {
    if call.Err? then ServiceError(call.message)
    else
      var result := call.value;
      if Paystack.PyTruthy(Paystack.Get(result, "status")) then
        if "data" !in result then ServiceError(KeyErrorText("data"))
        else
          match result["data"]
          case Object(d) =>
            if "authorization_url" !in d then ServiceError(KeyErrorText("authorization_url"))
            else if "access_code" !in d then ServiceError(KeyErrorText("access_code"))
            else Initialized(d["authorization_url"], d["access_code"], reference, orderId, total)
          case other => ServiceError(subscriptError(other))
      else Declined(Paystack.GetOr(result, "message", Paystack.Str(DeclinedDefault)))
  }

  /** For a returned result: 200 exactly when the gateway said yes and gave
      both authorization fields; 400 exactly when it said no; otherwise a
      500 naming the first key missing, or the subscript error of a `data`
      that is not a dictionary. A raised exception is a 500 with its text. A
      transport failure is a 400 carrying the client's prefixed error text,
      except an HTTP error whose body is not JSON, which raises inside the
      client and so is a 500 with the decoding error's text. */
  lemma GatewayOutcomeRules(result: map<string, Json>, reference: string, orderId: string, total: real,
                            subscriptError: Json -> string, error: string, transport: Paystack.Transport)
    ensures var r := GatewayOutcome(Ok(result), reference, orderId, total, subscriptError);
      var status := Paystack.PyTruthy(Paystack.Get(result, "status"));
      && (r.Code() == 200 <==>
            (status &&
             Paystack.Get(result, "data").Object? &&
             "authorization_url" in Paystack.Get(result, "data").fields &&
             "access_code" in Paystack.Get(result, "data").fields))
      && (r.Code() == 400 <==> !status)
      && (r.Initialized? ==> r.reference == reference && r.orderId == orderId && r.amount == total)
      && (r.Initialized? || r.Declined? || r.ServiceError?)
      && (status && "data" !in result ==> r == ServiceError("'data'"))
      && (status && "data" in result && !result["data"].Object? ==> r == ServiceError(subscriptError(result["data"])))
      && (status && "data" in result && result["data"].Object? ==>
            var d := result["data"].fields;
            && ("authorization_url" !in d ==> r == ServiceError("'authorization_url'"))
            && ("authorization_url" in d && "access_code" !in d ==> r == ServiceError("'access_code'")))
    ensures GatewayOutcome(Err(error), reference, orderId, total, subscriptError) == ServiceError(error)
    ensures !transport.Answered? && !(transport.HttpError? && transport.content.NotJson?) ==>
      GatewayOutcome(Paystack.InitializeResult(transport), reference, orderId, total, subscriptError) ==
      Declined(Paystack.Str(Paystack.InitFailurePrefix + transport.error))
    ensures transport.HttpError? && transport.content.NotJson? ==>
      GatewayOutcome(Paystack.InitializeResult(transport), reference, orderId, total, subscriptError) ==
      ServiceError(transport.content.error)
  {
    Paystack.InitializeResultRules(transport);
  }

  /** The view's loop over the validated lines: it stops at the first line
      whose variant is short of stock, and otherwise yields the naira
      subtotal and `items_data`. */
  method PriceLines(lines: seq<StoreViews.CartLine>) returns (short: Option<nat>, subtotal: real, itemsData: seq<Json>)
    ensures short == StoreViews.FirstShort(lines)
    ensures short.None? ==> subtotal == NairaSubtotal(lines) && itemsData == ItemsData(lines)
  {
    subtotal := 0.0;
    itemsData := [];
    var i := 0;
    while i < |lines|
      invariant 0 <= i <= |lines|
      invariant forall j :: 0 <= j < i ==> !StoreViews.Short(lines[j])
      invariant subtotal == NairaSubtotal(lines[..i])
      invariant itemsData == ItemsData(lines[..i])
    {
      var line := lines[i];
      var variant := line.variant;
      if variant.stock < line.quantity {
        StoreViews.FirstShortIs(lines, i);
        return Some(i), subtotal, itemsData;
      }
      var price := if variant.priceOverride.Some? && variant.priceOverride.value != 0.0
                   then variant.priceOverride.value else variant.basePrice;
      var priceNaira := price * NairaPerDollar;
      var itemSubtotal := priceNaira * (line.quantity as real);
      assert priceNaira == PriceNaira(variant);
      PricedStep(lines, i);
      subtotal := subtotal + itemSubtotal;
      itemsData := itemsData + [ItemJson(variant.productName, variant.size, line.quantity, priceNaira, itemSubtotal)];
      i := i + 1;
    }
    assert lines[..i] == lines;
    short := None;
  }

  /** `InitializePaymentView.post`. `orderHex` and `referenceHex` are the
      digests of the two fresh UUIDs; `sent` is the payload posted to the
      gateway, None when the view answers before calling it; `subscriptError`
      is `str(e)` of the TypeError raised when a non-dictionary `data` is
      indexed by a key. */
  method InitializePayment(catalogue: map<int, StoreViews.Variant>, request: InitRequest, user: User,
                           orderHex: string, referenceHex: string, callbackUrl: string,
                           transport: Paystack.Transport, subscriptError: Json -> string)
    returns (sent: Option<Paystack.InitPayload>, reply: InitReply)
    requires |orderHex| >= 8 && |referenceHex| >= 8
    ensures !Truthy(request.email) ==> sent == None && reply == EmailRequired
    ensures Truthy(request.email) && StoreViews.ValidateItems(catalogue, request.cartItems).Invalid? ==>
      sent == None && reply == InvalidItems(StoreViews.ValidateItems(catalogue, request.cartItems).errors)
    ensures Truthy(request.email) && StoreViews.ValidateItems(catalogue, request.cartItems).Valid? ==>
      var lines := StoreViews.ValidateItems(catalogue, request.cartItems).lines;
      StoreViews.FirstShort(lines).Some? ==>
        sent == None && reply == OutOfStock(StoreViews.StockMessage(lines[StoreViews.FirstShort(lines).value].variant))
    ensures Truthy(request.email) && StoreViews.ValidateItems(catalogue, request.cartItems).Valid? ==>
      var lines := StoreViews.ValidateItems(catalogue, request.cartItems).lines;
      var fee := if request.deliveryFee.Some? then request.deliveryFee.value else 0.0;
      var info := if request.customerInfo.Some? then request.customerInfo.value else Paystack.Object(map[]);
      var total := NairaSubtotal(lines) + fee;
      var orderId := "AGS-" + Paystack.Upper(orderHex[..8]);
      var reference := Paystack.PaymentReference(orderId, referenceHex);
      StoreViews.FirstShort(lines).None? ==>
        && sent == Some(Paystack.BuildPayload(request.email.value, total, reference, callbackUrl,
                          Some(Metadata(orderId, lines, request.email.value, info, NairaSubtotal(lines), fee, total, user))))
        && reply == GatewayOutcome(Paystack.InitializeResult(transport), reference, orderId, total, subscriptError)
  {
    if !Truthy(request.email) {
      return None, EmailRequired;
    }
    var email := request.email.value;
    var validation := StoreViews.ValidateItems(catalogue, request.cartItems);
    if validation.Invalid? {
      return None, InvalidItems(validation.errors);
    }
    var deliveryFee := if request.deliveryFee.Some? then request.deliveryFee.value else 0.0;
    var customerInfo := if request.customerInfo.Some? then request.customerInfo.value else Paystack.Object(map[]);
    var lines := validation.lines;
    var short, subtotal, itemsData := PriceLines(lines);
    if short.Some? {
      return None, OutOfStock(StoreViews.StockMessage(lines[short.value].variant));
    }
    var total := subtotal + deliveryFee;
    var orderId := "AGS-" + Paystack.Upper(orderHex[..8]);
    var reference := Paystack.PaymentReference(orderId, referenceHex);
    var metadata := BuildMetadata(orderId, lines, itemsData, email, customerInfo, subtotal, deliveryFee, total, user);
    sent := Some(Paystack.BuildPayload(email, total, reference, callbackUrl, Some(metadata)));
    var call := Paystack.InitializeResult(transport);
    reply := GatewayOutcome(call, reference, orderId, total, subscriptError);
  }

  /** With non-negative prices, fee and quantities, the amount charged is
      the converted order total plus the fee, and the payload's kobo amount
      is within one kobo of a hundred times it. */
  lemma ChargedAmount(lines: seq<StoreViews.CartLine>, fee: real, email: string, reference: string,
                      callbackUrl: string, metadata: map<string, Json>)
    requires forall l :: l in lines ==> StoreViews.UnitPrice(l.variant) >= 0.0 && l.quantity >= 1
    requires fee >= 0.0
    ensures var total := NairaSubtotal(lines) + fee;
      && total == NairaPerDollar * StoreViews.OrderTotal(lines) + fee
      && total >= fee
      && var p := Paystack.BuildPayload(email, total, reference, callbackUrl, Some(metadata));
         p.amount as real <= total * 100.0 < p.amount as real + 1.0
  {
    NairaSubtotalIsConverted(lines);
    StoreViews.OrderTotalBounds(lines);
  }

  // ---------------------------------------------------------------------------
  // VerifyPaymentView.get

  datatype VerifyReply =
    | PaymentVerified(reference: Json, amount: real, status: Json, paidAt: Json, customer: Json, metadata: Json)
    | PaymentNotSuccessful(message: string, reference: Json, status: Json)
    | VerificationFailed(gatewayMessage: Json)
    | VerifyCrashed
  {
    function Code(): int {
      match this
      case PaymentVerified(_, _, _, _, _, _) => 200
      case VerifyCrashed => 500
      case _ => 400
    }
  }

  /** Python `str()` of a decoded value; `render` gives it for numbers,
      lists and dictionaries. */
  function PyStr(j: Json, render: Json -> string): string {
    match j
    case Null => "None"
    case Str(s) => s
    case Bool(b) => if b then "True" else "False"
    case _ => render(j)
  }

  const VerifyDefault := "Payment verification failed"

  /** The view's decision on the dictionary `verify_transaction` returned.
      `data.get('amount') / 100` raises on a missing or non-numeric amount
      and the view does not catch it (a 500); so does `.get` on a truthy
      `data` that is not a dictionary. A boolean amount divides as 0 or 1. */
  function VerifyDecision(result: map<string, Json>, render: Json -> string): VerifyReply {
    var data := Paystack.Get(result, "data");
    if Paystack.PyTruthy(Paystack.Get(result, "status")) && Paystack.PyTruthy(data) then
      match data
      case Object(d) =>
        var txStatus := Paystack.Get(d, "status");
        if txStatus == Paystack.Str("success") then
          match Paystack.Get(d, "amount")
          case Num(n) => PaymentVerified(Paystack.Get(d, "reference"), n / 100.0, txStatus,
                                         Paystack.Get(d, "paid_at"), Paystack.Get(d, "customer"), Paystack.Get(d, "metadata"))
          case Bool(b) => PaymentVerified(Paystack.Get(d, "reference"), (if b then 1.0 else 0.0) / 100.0, txStatus,
                                          Paystack.Get(d, "paid_at"), Paystack.Get(d, "customer"), Paystack.Get(d, "metadata"))
          case _ => VerifyCrashed
        else PaymentNotSuccessful("Payment " + PyStr(txStatus, render), Paystack.Get(d, "reference"), txStatus)
      case _ => VerifyCrashed
    else VerificationFailed(Paystack.GetOr(result, "message", Paystack.Str(VerifyDefault)))
  }

  /** `VerifyPaymentView.get`: the URL it asks the gateway for, and its
      answer. */
  function VerifyPayment(reference: string, transport: Paystack.Transport, render: Json -> string): (r: (string, VerifyReply))
    ensures r.0 == Paystack.VerifyUrl(reference)
  {
    (Paystack.VerifyUrl(reference), VerifyDecision(Paystack.VerifyResult(transport), render))
  }

  /** A 200 exactly for a truthy `status` with a `data` dictionary whose
      `status` is "success" and whose amount is numeric; the amount is then
      the kobo amount over a hundred. Any other transaction status is a 400
      naming it; an unusable result is a 400 with the gateway's message or
      the default; a failed request is a 400 with the prefixed error. */
  lemma VerifyDecisionRules(result: map<string, Json>, render: Json -> string, transport: Paystack.Transport)
    ensures var r := VerifyDecision(result, render);
      var data := Paystack.Get(result, "data");
      && (r.Code() == 200 <==>
            (Paystack.PyTruthy(Paystack.Get(result, "status")) && data.Object? && data.fields != map[] &&
             Paystack.Get(data.fields, "status") == Paystack.Str("success") &&
             (Paystack.Get(data.fields, "amount").Num? || Paystack.Get(data.fields, "amount").Bool?)))
      && (r.PaymentVerified? && Paystack.Get(data.fields, "amount").Num? ==> r.amount * 100.0 == Paystack.Get(data.fields, "amount").n)
      && (r.PaymentNotSuccessful? ==> r.message == "Payment " + PyStr(Paystack.Get(data.fields, "status"), render))
      && (Paystack.PyTruthy(Paystack.Get(result, "status")) && data.Object? && data.fields != map[] &&
          Paystack.Get(data.fields, "status") != Paystack.Str("success") ==>
            r == PaymentNotSuccessful("Payment " + PyStr(Paystack.Get(data.fields, "status"), render),
                                      Paystack.Get(data.fields, "reference"), Paystack.Get(data.fields, "status"))
            && r.Code() == 400)
      && (!Paystack.PyTruthy(Paystack.Get(result, "status")) || !Paystack.PyTruthy(data) ==>
            r == VerificationFailed(Paystack.GetOr(result, "message", Paystack.Str(VerifyDefault))) && r.Code() == 400)
      && (!Paystack.PyTruthy(Paystack.Get(result, "status")) && "message" !in result ==>
            r == VerificationFailed(Paystack.Str(VerifyDefault)))
    ensures !transport.Answered? ==>
      VerifyDecision(Paystack.VerifyResult(transport), render) ==
      VerificationFailed(Paystack.Str(Paystack.VerifyFailurePrefix + transport.error))
  {
    Paystack.VerifyResultRules(transport);
  }

  // ---------------------------------------------------------------------------
  // PaymentWebhookView.post

  datatype WebhookReply = Received | WebhookCrashed
  {
    function Code(): int {
      if Received? then 200 else 500
    }
  }

  /** Every event is acknowledged with `{"status": "received"}`, except
      that a "charge.success" event whose `data` is not a dictionary fails
      on `data.get('reference')`. */
  function Webhook(body: map<string, Json>): WebhookReply {
    var event := Paystack.Get(body, "event");
    var data := Paystack.Get(body, "data");
    if event == Paystack.Str("charge.success") && !data.Object? then WebhookCrashed else Received
  }

  /** The reply depends on nothing but the event name and the kind of its
      data: no other event, and no content of the data, changes it. */
  lemma WebhookRules(body: map<string, Json>, other: map<string, Json>)
    ensures Webhook(body).Code() == 500 <==>
      Paystack.Get(body, "event") == Paystack.Str("charge.success") && !Paystack.Get(body, "data").Object?
    ensures (Paystack.Get(body, "event") == Paystack.Get(other, "event") &&
             Paystack.Get(body, "data").Object? == Paystack.Get(other, "data").Object?) ==>
      Webhook(body) == Webhook(other)
  {
  }
}
