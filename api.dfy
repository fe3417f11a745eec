/** The client's REST helper (ag-gearstore/src/lib/api.ts): the catalogue
    types, the header and error rules of `apiRequest`, the product-list query
    and the endpoint paths. The network itself is a parameter: each request's
    outcome is given as a `FetchOutcome`. */
module Api {
  import opened Base

  const ApiUrl: string := "http://localhost:8000"

  datatype ProductVariant = ProductVariant(id: int, size: string, stock: int, priceOverride: Option<string>)

  /** A product as the API returns it; `basePrice` is the decimal string the
      backend sends, and `variants` may be missing. */
  datatype Product = Product(
    id: int, name: string, basePrice: string, stock: int, image: string,
    team: string, description: string, variants: Option<seq<ProductVariant>>)

  // ---------------------------------------------------------------------------
  // Request headers and options

  datatype Header = Header(name: string, value: string)

  const ContentTypeJson: Header := Header("Content-Type", "application/json")

  predicate IsAuthorization(h: Header) {
    h.name == "Authorization"
  }

  /** The header object `apiRequest` builds from the stored `access_token`:
      the JSON content type always comes first, and an `Authorization: Bearer`
      header follows exactly when the token is truthy. */
  function DefaultHeaders(token: Option<string>): (hs: seq<Header>)
    ensures 1 <= |hs| <= 2 && hs[0] == ContentTypeJson
    ensures (exists k :: 0 <= k < |hs| && IsAuthorization(hs[k])) <==> Truthy(token)
    ensures forall k :: 0 <= k < |hs| && IsAuthorization(hs[k]) ==> hs[k].value == "Bearer " + token.value
  {
    if Truthy(token) then
      var hs := [ContentTypeJson, Header("Authorization", "Bearer " + token.value)];
      assert IsAuthorization(hs[1]);
      hs
    else [ContentTypeJson]
  }

  /** The caller's `RequestInit`; a `None` field is a property the caller did
      not set. */
  datatype RequestOptions = RequestOptions(httpMethod: Option<string>, headers: Option<seq<Header>>, body: Option<string>)

  /** The init object passed to `fetch`: `{ headers: defaults, ...options }`.
      Because the options are spread last, caller-supplied headers replace the
      default header object wholesale (the content type and the token are then
      not added). */
  function FetchInit(token: Option<string>, options: Option<RequestOptions>): (init: RequestOptions)
    ensures options.Some? && options.value.headers.Some? ==> init == options.value
    ensures options.Some? ==> init.httpMethod == options.value.httpMethod && init.body == options.value.body
    ensures (options.None? || options.value.headers.None?) ==> init.headers == Some(DefaultHeaders(token))
  {
    match options
    case None => RequestOptions(None, Some(DefaultHeaders(token)), None)
    case Some(o) => if o.headers.Some? then o else o.(headers := Some(DefaultHeaders(token)))
  }

  // ---------------------------------------------------------------------------
  // Outcome of a request

  /** The JSON error body of a failed response (only the two fields read). */
  datatype ErrorBody = ErrorBody(detail: Option<string>, error: Option<string>)

  /** What `fetch` and `response.json()` produced. `errorBody` is None when the
      error body did not parse (it is then read as `{}`); `body` is None when a
      successful response's body did not parse. */
  datatype FetchOutcome<T> =
    | Unreachable
    | NotOk(status: int, errorBody: Option<ErrorBody>)
    | IsOk(body: Option<T>)

  const NetworkErrorMessage: string := "Network error - please try again"

  function Detail(eb: Option<ErrorBody>): Option<string> {
    if eb.Some? then eb.value.detail else None
  }

  function ErrorField(eb: Option<ErrorBody>): Option<string> {
    if eb.Some? then eb.value.error else None
  }

  /** The message of the `ApiError` thrown for a non-ok response:
      `detail || error || "HTTP <status>"`. It is never empty. */
  function HttpErrorMessage(status: int, eb: Option<ErrorBody>): (m: string)
    ensures m != ""
    ensures Truthy(Detail(eb)) ==> m == Detail(eb).value
    ensures !Truthy(Detail(eb)) && Truthy(ErrorField(eb)) ==> m == ErrorField(eb).value
  {
    OrElse(Detail(eb), OrElse(ErrorField(eb), "HTTP " + IntToString(status)))
  }

  /** With neither `detail` nor `error`, the message is "HTTP " followed by the
      status code in decimal, which reads back as that code. */
  lemma HttpFallbackNamesStatus(status: nat, eb: Option<ErrorBody>)
    requires !Truthy(Detail(eb)) && !Truthy(ErrorField(eb))
    ensures var m := HttpErrorMessage(status, eb);
      |m| > 5 && m[..5] == "HTTP " && AllDigits(m[5..]) && DigitsValue(m[5..]) == status
  {
    NatToStringRoundTrip(status);
    var m := HttpErrorMessage(status, eb);
    assert m == "HTTP " + NatToString(status);
    assert m[5..] == NatToString(status);
  }

  /** `apiRequest`: the parsed body of an ok response; the server's message for
      a non-ok response (an `ApiError`, rethrown unchanged); and the generic
      network message for everything else that throws (an unreachable server,
      an unparsable success body). */
  function ApiRequest<T>(outcome: FetchOutcome<T>): (r: Result<T>)
    ensures r.Ok? <==> outcome.IsOk? && outcome.body.Some?
    ensures r.Ok? ==> r.value == outcome.body.value
    ensures outcome.NotOk? ==> r == Err(HttpErrorMessage(outcome.status, outcome.errorBody))
    ensures !outcome.NotOk? && r.Err? ==> r.message == NetworkErrorMessage
  {
    match outcome
    case Unreachable => Err(NetworkErrorMessage)
    case NotOk(status, eb) => Err(HttpErrorMessage(status, eb))
    case IsOk(body) => if body.Some? then Ok(body.value) else Err(NetworkErrorMessage)
  }

  // ---------------------------------------------------------------------------
  // productsApi.getAll: the query string

  datatype ProductQuery = ProductQuery(team: Option<string>, search: Option<string>, priceMin: Option<string>, priceMax: Option<string>)

  /** The four parameters `getAll` knows, in the order it appends them. */
  datatype ParamKey = Team | Search | PriceMin | PriceMax {
    function Name(): string {
      match this
      case Team => "team"
      case Search => "search"
      case PriceMin => "price_min"
      case PriceMax => "price_max"
    }

    function Rank(): nat {
      match this
      case Team => 0
      case Search => 1
      case PriceMin => 2
      case PriceMax => 3
    }
  }

  datatype QueryParam = QueryParam(key: ParamKey, value: string)

  function KeyAt(i: nat): (k: ParamKey)
    requires i < 4
    ensures k.Rank() == i
  {
    if i == 0 then Team else if i == 1 then Search else if i == 2 then PriceMin else PriceMax
  }

  function ParamValue(q: ProductQuery, k: ParamKey): Option<string> {
    match k
    case Team => q.team
    case Search => q.search
    case PriceMin => q.priceMin
    case PriceMax => q.priceMax
  }

  /** Reference definition of the parameters from position `i` on: each truthy
      one, in the fixed order. */
  function Selected(q: ProductQuery, i: nat): seq<QueryParam>
    requires i <= 4
    decreases 4 - i
  {
    if i == 4 then
      []
    else
      var k := KeyAt(i);
      (if Truthy(ParamValue(q, k)) then [QueryParam(k, ParamValue(q, k).value)] else []) + Selected(q, i + 1)
  }

  /** Every selected parameter is a truthy one from position `i` on, carrying
      its own value. */
  lemma {:induction false} SelectedAreTruthy(q: ProductQuery, i: nat)
    requires i <= 4
    ensures forall p :: p in Selected(q, i) ==>
      i <= p.key.Rank() && Truthy(ParamValue(q, p.key)) && p.value == ParamValue(q, p.key).value
    decreases 4 - i
  {
    if i < 4 {
      SelectedAreTruthy(q, i + 1);
    }
  }

  /** Every truthy parameter from position `i` on is selected. */
  lemma {:induction false} SelectedAreComplete(q: ProductQuery, i: nat, k: ParamKey)
    requires i <= k.Rank() && Truthy(ParamValue(q, k))
    ensures QueryParam(k, ParamValue(q, k).value) in Selected(q, i)
    decreases 4 - i
  {
    if i < k.Rank() {
      SelectedAreComplete(q, i + 1, k);
    } else {
      assert KeyAt(i) == k;
    }
  }

  /** The selection is in strictly increasing order of position, so each key
      appears at most once. */
  lemma {:induction false} SelectedAreOrdered(q: ProductQuery, i: nat)
    requires i <= 4
    ensures var s := Selected(q, i);
      forall n, m :: 0 <= n < m < |s| ==> s[n].key.Rank() < s[m].key.Rank()
    decreases 4 - i
  {
    if i < 4 {
      SelectedAreOrdered(q, i + 1);
      SelectedAreTruthy(q, i + 1);
      var rest := Selected(q, i + 1);
      var key := KeyAt(i);
      if Truthy(ParamValue(q, key)) {
        var s := [QueryParam(key, ParamValue(q, key).value)] + rest;
        assert Selected(q, i) == s;
        forall n, m | 0 <= n < m < |s| ensures s[n].key.Rank() < s[m].key.Rank() {
          assert s[m] == rest[m - 1];
          if n > 0 {
            assert s[n] == rest[n - 1];
          } else {
            assert rest[m - 1] in rest;
          }
        }
      }
    }
  }

  /** The `URLSearchParams` that `getAll` fills by successive `append` calls:
      exactly the truthy parameters, each with its own value, each once, in the
      fixed order team, search, price_min, price_max. */
  method SearchParams(params: Option<ProductQuery>) returns (ps: seq<QueryParam>)
    ensures params.None? ==> ps == []
    ensures params.Some? ==> ps == Selected(params.value, 0)
    ensures forall p :: p in ps ==>
      Truthy(ParamValue(params.value, p.key)) && p.value == ParamValue(params.value, p.key).value
    ensures params.Some? ==> forall k: ParamKey :: Truthy(ParamValue(params.value, k)) ==>
      QueryParam(k, ParamValue(params.value, k).value) in ps
    ensures forall n, m :: 0 <= n < m < |ps| ==> ps[n].key.Rank() < ps[m].key.Rank()
  {
    ps := [];
    if params.None? {
      return;
    }
    var q := params.value;
    if Truthy(q.team) {
      ps := ps + [QueryParam(Team, q.team.value)];
    }
    if Truthy(q.search) {
      ps := ps + [QueryParam(Search, q.search.value)];
    }
    if Truthy(q.priceMin) {
      ps := ps + [QueryParam(PriceMin, q.priceMin.value)];
    }
    if Truthy(q.priceMax) {
      ps := ps + [QueryParam(PriceMax, q.priceMax.value)];
    }
    assert ps == Selected(q, 0);
    SelectedAreTruthy(q, 0);
    SelectedAreOrdered(q, 0);
    forall k: ParamKey | Truthy(ParamValue(q, k)) ensures QueryParam(k, ParamValue(q, k).value) in ps {
      SelectedAreComplete(q, 0, k);
    }
  }

  /** `URLSearchParams.toString()`: `name=value` pairs joined by '&'. The
      form-urlencoding of each name and value is a parameter. */
  function QueryString(escape: string -> string, ps: seq<QueryParam>): (q: string)
    ensures q == "" <==> ps == []
  {
    if ps == [] then ""
    else if |ps| == 1 then escape(ps[0].key.Name()) + "=" + escape(ps[0].value)
    else escape(ps[0].key.Name()) + "=" + escape(ps[0].value) + "&" + QueryString(escape, ps[1..])
  }

  const ProductsPath: string := "/api/store/products/"

  /** The endpoint `getAll` requests: the products path, with `?<query>`
      appended only for a non-empty query. */
  function ProductsListPath(escape: string -> string, ps: seq<QueryParam>): (path: string)
    ensures ps == [] ==> path == ProductsPath
    ensures ps != [] ==> path == ProductsPath + "?" + QueryString(escape, ps)
  {
    var query := QueryString(escape, ps);
    ProductsPath + (if query != "" then "?" + query else "")
  }

  /** `getById(id)` requests `/api/store/products/<id>/`; for a non-negative
      id the path segment reads back as the id. */
  function ProductDetailPath(id: int): (path: string)
    ensures |path| > |ProductsPath| + 1 && path[..|ProductsPath|] == ProductsPath && path[|path| - 1] == '/'
    ensures id >= 0 ==> var seg := path[|ProductsPath|..|path| - 1];
      AllDigits(seg) && DigitsValue(seg) == id
  {
    NatToStringRoundTrip(if id < 0 then -id else id);
    var path := ProductsPath + IntToString(id) + "/";
    assert path[|ProductsPath|..|path| - 1] == IntToString(id);
    path
  }

  /** `getCategories` path. */
  const CategoriesPath: string := "/api/store/categories/"

  // ---------------------------------------------------------------------------
  // checkoutApi

  /** A line of the `cart_items` body as the client's type declares it. */
  datatype CheckoutLine = CheckoutLine(productId: int, quantity: int)

  datatype ApiCall = ApiCall(path: string, httpMethod: string, cartItems: seq<CheckoutLine>)

  /** `guestCheckout` and `authCheckout`: a POST of `{cart_items}` to the
      guest or the authenticated checkout path, with the lines unchanged. */
  function CheckoutCall(authenticated: bool, lines: seq<CheckoutLine>): (call: ApiCall)
    ensures call.httpMethod == "POST" && call.cartItems == lines
    ensures call.path == (if authenticated then "/api/store/auth-checkout/" else "/api/store/guest-checkout/")
  {
    ApiCall(if authenticated then "/api/store/auth-checkout/" else "/api/store/guest-checkout/", "POST", lines)
  }
}
