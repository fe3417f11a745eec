/** The Paystack client of the backend (gearstore_backend/store/payment.py):
    the initialize payload, the result dictionaries the two calls return on
    success and on failure, the payment reference, and the kobo conversion.
    The HTTP exchange itself is a parameter (`Transport`); decoded JSON is
    the `Json` datatype. */
module Paystack {
  import opened Base

  /** A value as Python's `json` decoding produces it. */
  datatype Json = Null | Bool(b: bool) | Num(n: real) | Str(s: string) | List(items: seq<Json>) | Object(fields: map<string, Json>)

  /** Python truthiness of a decoded value. */
  predicate PyTruthy(j: Json) {
    match j
    case Null => false
    case Bool(b) => b
    case Num(n) => n != 0.0
    case Str(s) => s != ""
    case List(xs) => xs != []
    case Object(m) => m != map[]
  }

  /** `d.get(key)`. */
  function Get(d: map<string, Json>, key: string): Json {
    if key in d then d[key] else Null
  }

  /** `d.get(key, default)`: the default only for a missing key, not for a
      present falsy value. */
  function GetOr(d: map<string, Json>, key: string, default: Json): Json {
    if key in d then d[key] else default
  }

  const BaseUrl := "https://api.paystack.co"
  const InitializeUrl := BaseUrl + "/transaction/initialize"

  function VerifyUrl(reference: string): (url: string)
    ensures |url| == |BaseUrl| + 20 + |reference|
    ensures url[..|BaseUrl| + 20] == BaseUrl + "/transaction/verify/"
    ensures url[|BaseUrl| + 20..] == reference
  {
    BaseUrl + "/transaction/verify/" + reference
  }

  // ---------------------------------------------------------------------------
  // Amounts

  /** `int(amount * 100)`: naira to kobo, truncated toward zero. */
  function Kobo(amount: real): int {
    Trunc(amount * 100.0)
  }

  /** A whole naira amount converts exactly; any non-negative amount loses
      less than one kobo; and the conversion never reverses an order. */
  lemma KoboRules(n: int, amount: real, other: real)
    ensures Kobo(n as real) == 100 * n
    ensures amount >= 0.0 ==> 0 <= Kobo(amount) && Kobo(amount) as real <= amount * 100.0 < Kobo(amount) as real + 1.0
    ensures amount <= other ==> Kobo(amount) <= Kobo(other)
  {
    assert (n as real) * 100.0 == (100 * n) as real;
    TruncOfWhole(100 * n);
    if amount <= other {
      TruncMonotone(amount * 100.0, other * 100.0);
    }
  }

  lemma TruncMonotone(x: real, y: real)
    requires x <= y
    ensures Trunc(x) <= Trunc(y)
  {
    if x >= 0.0 {
      assert x.Floor <= y.Floor;
    } else if y < 0.0 {
      assert (-y).Floor <= (-x).Floor;
    }
  }

  /** `calculate_amount_in_kobo`: `int(Decimal(amount) * 100)`, the same
      truncating conversion. */
  function AmountInKobo(amount: real): (k: int)
    ensures amount >= 0.0 ==> 0 <= k && k as real <= amount * 100.0 < k as real + 1.0
    ensures amount < 0.0 ==> k <= 0 && k as real - 1.0 < amount * 100.0 <= k as real
  {
    Kobo(amount)
  }

  // ---------------------------------------------------------------------------
  // initialize_transaction

  /** The JSON body posted to the initialize endpoint. */
  datatype InitPayload = InitPayload(email: string, amount: int, reference: string, callbackUrl: string,
                                     metadata: Option<map<string, Json>>)

  /** The payload: the amount in kobo, and a `metadata` key only when the
      metadata given is a non-empty dictionary. */
  function BuildPayload(email: string, amount: real, reference: string, callbackUrl: string,
                        metadata: Option<map<string, Json>>): (p: InitPayload)
    ensures p.email == email && p.reference == reference && p.callbackUrl == callbackUrl
    ensures amount >= 0.0 ==> 0 <= p.amount && p.amount as real <= amount * 100.0 < p.amount as real + 1.0
    ensures p.metadata.Some? <==> metadata.Some? && metadata.value != map[]
    ensures p.metadata.Some? ==> p.metadata == metadata
  {
    KoboRules(0, amount, amount);
    InitPayload(email, Kobo(amount), reference, callbackUrl,
                if metadata.Some? && metadata.value != map[] then metadata else None)
  }

  /** The body of an HTTP error answer: empty, decodable JSON, or content
      that `response.json()` cannot decode (an HTML error page, say);
      `error` is `str(e)` of the decoding exception. */
  datatype ErrorBody = NoContent | JsonBody(json: Json) | NotJson(error: string)

  /** How the request went: a 2xx answer with its decoded body, an HTTP
      error status with its error body, or a failure before any answer.
      `error` is `str(e)` of the exception. */
  datatype Transport = Answered(body: map<string, Json>) | HttpError(error: string, content: ErrorBody) | RequestError(error: string)

  const InitFailurePrefix := "Payment initialization failed: "
  const VerifyFailurePrefix := "Transaction verification failed: "

  /** What `initialize_transaction` returns, or `Err` with the text of the
      exception it raises: decoding an error body that is not JSON happens
      inside the `HTTPError` handler, so the sibling `RequestException`
      handler does not catch it and it leaves the method. */
  function InitializeResult(transport: Transport): Result<map<string, Json>> {
    match transport
    case Answered(body) => Ok(body)
    case HttpError(e, content) =>
      (match content
       case NotJson(decodeError) => Err(decodeError)
       case NoContent =>
         Ok(map["status" := Bool(false), "message" := Str(InitFailurePrefix + e), "paystack_response" := Null])
       case JsonBody(j) =>
         Ok(map["status" := Bool(false), "message" := Str(InitFailurePrefix + e), "paystack_response" := j]))
    case RequestError(e) =>
      Ok(map["status" := Bool(false), "message" := Str(InitFailurePrefix + e)])
  }

  /** A decoded answer is returned as it is; an error body that is not JSON
      raises; every other failure returns a falsy `status` and a message
      made of the fixed prefix and the error text, and an HTTP error keeps
      its decoded body (None when empty) under "paystack_response". */
  lemma InitializeResultRules(transport: Transport)
    ensures transport.Answered? ==> InitializeResult(transport) == Ok(transport.body)
    ensures InitializeResult(transport).Err? <==> transport.HttpError? && transport.content.NotJson?
    ensures InitializeResult(transport).Err? ==> InitializeResult(transport).message == transport.content.error
    ensures !transport.Answered? && InitializeResult(transport).Ok? ==>
      var r := InitializeResult(transport).value;
      && !PyTruthy(Get(r, "status"))
      && Get(r, "message") == Str(InitFailurePrefix + transport.error)
      && ("paystack_response" in r <==> transport.HttpError?)
      && (transport.HttpError? ==>
            r["paystack_response"] == (if transport.content.JsonBody? then transport.content.json else Null))
  {
  }

  /** What `verify_transaction` returns: an HTTP error is handled like any
      other request failure, and its body is not kept. */
  function VerifyResult(transport: Transport): map<string, Json> {
    match transport
    case Answered(body) => body
    case HttpError(e, _) => map["status" := Bool(false), "message" := Str(VerifyFailurePrefix + e)]
    case RequestError(e) => map["status" := Bool(false), "message" := Str(VerifyFailurePrefix + e)]
  }

  lemma VerifyResultRules(transport: Transport)
    ensures transport.Answered? ==> VerifyResult(transport) == transport.body
    ensures !transport.Answered? ==>
      var r := VerifyResult(transport);
      && r.Keys == {"status", "message"}
      && !PyTruthy(Get(r, "status"))
      && Get(r, "message") == Str(VerifyFailurePrefix + transport.error)
  {
  }

  // ---------------------------------------------------------------------------
  // generate_payment_reference

  /** `str.upper()` on the characters a hex digest can hold. */
  function UpperChar(c: char): char {
    if 'a' <= c <= 'z' then (c as int - 32) as char else c
  }

  function Upper(s: string): (u: string)
    ensures |u| == |s| && forall i :: 0 <= i < |s| ==> u[i] == UpperChar(s[i])
  {
    seq(|s|, i requires 0 <= i < |s| => UpperChar(s[i]))
  }

  predicate IsLowerHex(c: char) {
    '0' <= c <= '9' || 'a' <= c <= 'f'
  }

  predicate IsUpperHex(c: char) {
    '0' <= c <= '9' || 'A' <= c <= 'F'
  }

  /** `f"AGS-{order_id}-{uuid.uuid4().hex[:8].upper()}"`, with `hex` the
      digest the fresh UUID gives (32 characters). */
  function PaymentReference(orderId: string, hex: string): string
    requires |hex| >= 8
  {
    "AGS-" + orderId + "-" + Upper(hex[..8])
  }

  /** The order id a reference was made from: the text between the "AGS-"
      prefix and the final "-" and eight characters. */
  function OrderIdOf(reference: string): string
    requires |reference| >= 13
  {
    reference[4..|reference| - 9]
  }

  /** The reference is "AGS-", the order id, "-", and eight upper-case hex
      digits; the order id can be read back from it. */
  lemma {:induction false} PaymentReferenceRules(orderId: string, hex: string)
    requires |hex| >= 8
    ensures var r := PaymentReference(orderId, hex);
      && |r| == |orderId| + 13
      && r[..4] == "AGS-"
      && r[|r| - 9] == '-'
      && OrderIdOf(r) == orderId
      && ((forall i :: 0 <= i < 8 ==> IsLowerHex(hex[i])) ==> forall i :: |r| - 8 <= i < |r| ==> IsUpperHex(r[i]))
  {
    var r := PaymentReference(orderId, hex);
    var tail := Upper(hex[..8]);
    assert r == "AGS-" + orderId + "-" + tail;
    assert r[4..|r| - 9] == orderId;
    forall i | |r| - 8 <= i < |r|
      ensures r[i] == UpperChar(hex[i - (|r| - 8)])
    {
      assert r[i] == tail[i - (|r| - 8)];
    }
  }
}
