/** Request normalisation: the part of `AuthService.request` that turns the
    caller's method, path, params, headers and body into the request handed
    to the transport, before any credential is attached. */
module Normalizer {
  import opened Values
  import opened Text

  const TimeoutParam := "TIMEOUT_MS"
  const DefaultTimeoutMs := 60 * 5 * 1000
  const IgnoreObserver := "__IgnoreObserver__"
  const ContentType := "Content-Type"
  const Accept := "Accept"
  const ClientHeader := "X-Vyasa-Client"
  const Authorization := "Authorization"
  const ApplicationJson := "application/json"
  const OctetStream := "application/octet-stream"
  const ClientName := "layar"
  const ApiPrefix := "/layar"

  datatype ResponseKind = Blob | Json | PlainText

  /** A normalised call: the request seen by the transport and the observer,
      how to read its response, its timeout, and whether the observer is
      kept out of it. */
  datatype Prepared = Prepared(request: Request, responseType: ResponseKind, timeoutMs: Number, ignoreObserver: bool)

  datatype Verb = GET | POST | PUT | PATCH | DELETE

  function VerbName(v: Verb): string {
    match v
    case GET => "GET"
    case POST => "POST"
    case PUT => "PUT"
    case PATCH => "PATCH"
    case DELETE => "DELETE"
  }

  /** The path a verb helper hands to `request`. */
  function HelperPath(v: Verb, path: string): (r: string)
    ensures v == DELETE ==> r == path
    ensures v != DELETE ==> |r| == |ApiPrefix| + |path| && r[..|ApiPrefix|] == ApiPrefix && r[|ApiPrefix|..] == path
  {
    if v == DELETE then path else ApiPrefix + path
  }

  // ---------------------------------------------------------------- headers

  /** `!!h[k]`: the header is present with a non-empty value. */
  predicate Truthy(h: Headers, k: string) {
    k in h && h[k] != ""
  }

  /** `h[k] || d`. */
  function WithDefault(h: Headers, k: string, d: string): string {
    if Truthy(h, k) then h[k] else d
  }

  /** The keys to which `request` gives a default value. */
  predicate Defaulted(k: string) {
    k == ContentType || k == Accept || k == ClientHeader
  }

  /** What `request` promises about the headers it sends, given the caller's
      `headers_` and body: `Accept` and `X-Vyasa-Client` always carry a
      value, the caller's or the default; `Content-Type` gets its default
      only when there is a body; the suppression marker is removed when set;
      every other header is sent exactly as the caller gave it; and no other
      header is added. */
  ghost predicate HeadersPrepared(headers_: Headers, data: Body, headers: Headers, ignoreObserver: bool) {
    && (ignoreObserver <==> Truthy(headers_, IgnoreObserver) || Truthy(headers_, Authorization))
    && Accept in headers && headers[Accept] == WithDefault(headers_, Accept, ApplicationJson)
    && ClientHeader in headers && headers[ClientHeader] == WithDefault(headers_, ClientHeader, ClientName)
    && (data.Payload? ==>
          ContentType in headers && headers[ContentType] == WithDefault(headers_, ContentType, ApplicationJson))
    && (data.NoBody? ==>
          (ContentType in headers <==> ContentType in headers_) &&
          (ContentType in headers_ ==> headers[ContentType] == headers_[ContentType]))
    && (Truthy(headers_, IgnoreObserver) ==> IgnoreObserver !in headers)
    && (forall k :: k in headers ==> k in headers_ || Defaulted(k))
    && (forall k :: k in headers_ && !Defaulted(k) && !(k == IgnoreObserver && Truthy(headers_, k)) ==>
          k in headers && headers[k] == headers_[k])
  }

  /** Every header the caller set to a non-empty value, other than the
      suppression marker, is sent with the caller's value. */
  lemma CallerHeadersKept(headers_: Headers, data: Body, headers: Headers, ignoreObserver: bool, k: string)
    requires HeadersPrepared(headers_, data, headers, ignoreObserver)
    requires Truthy(headers_, k) && k != IgnoreObserver
    ensures k in headers && headers[k] == headers_[k]
  {
  }

  /** How the response is read, from the `Accept` header that is sent. */
  function ResponseTypeFor(accept: string): (r: ResponseKind)
    ensures r == Blob <==> accept == OctetStream
    ensures r == Json <==> accept == ApplicationJson
  {
    if accept == OctetStream then Blob else if accept == ApplicationJson then Json else PlainText
  }

  // ----------------------------------------------------------------- params

  /** Dates with a non-zero time are sent as their ISO rendering; everything
      else is left as it is. */
  function Serialize(o: Item): (r: Item)
    ensures r == Missing <==> o == Missing
    ensures !o.Date? ==> r == o
    ensures r.Date? ==> r == o && (o.time.NaN? || o.time.value == 0)
    ensures o.Date? && !r.Date? ==> r == Str(o.iso)
    ensures o.Date? && (o.time.NaN? || o.time.value == 0) ==> r == o
  {
    if o.Date? && o.time.Num? && o.time.value != 0 then Str(o.iso) else o
  }

  /** `array.map(serialize).filter(o => o !== undefined)`. */
  function Present(items: seq<Item>): (r: seq<Item>)
    ensures |r| <= |items|
    ensures forall i :: 0 <= i < |r| ==> r[i] != Missing
  {
    if items == [] then []
    else (if items[0] == Missing then [] else [Serialize(items[0])]) + Present(items[1..])
  }

  /** A single element is dropped when it is `undefined` and otherwise kept,
      serialised; with `PresentAppend` this fixes `Present` on every array. */
  lemma PresentOne(x: Item)
    ensures Present([x]) == if x == Missing then [] else [Serialize(x)]
  {
    assert [x][1..] == [];
  }

  /** Filtering keeps the relative order of the elements it keeps. */
  lemma {:induction false} PresentAppend(xs: seq<Item>, ys: seq<Item>)
    ensures Present(xs + ys) == Present(xs) + Present(ys)
  {
    if xs != [] {
      assert (xs + ys)[0] == xs[0];
      assert (xs + ys)[1..] == xs[1..] + ys;
      PresentAppend(xs[1..], ys);
      var h := if xs[0] == Missing then [] else [Serialize(xs[0])];
      calc {
        Present(xs + ys);
        h + Present(xs[1..] + ys);
        h + (Present(xs[1..]) + Present(ys));
        (h + Present(xs[1..])) + Present(ys);
      }
    } else {
      assert xs + ys == ys;
    }
  }

  predicate AllStrings(xs: seq<Item>) {
    forall i :: 0 <= i < |xs| ==> xs[i].Str?
  }

  /** An array of strings passes through filtering unchanged. */
  lemma {:induction false} PresentStrings(xs: seq<Item>)
    requires AllStrings(xs)
    ensures Present(xs) == xs
  {
    if xs != [] {
      assert AllStrings(xs[1..]);
      PresentStrings(xs[1..]);
    }
  }

  function Elements(v: ParamValue): seq<Item> {
    match v
    case Scalar(x) => [x]
    case List(xs) => xs
  }

  /** The value a parameter is sent with, or `None` when its key is removed. */
  function NormalizedValue(v: ParamValue): (r: Option<ParamValue>)
    ensures r.None? <==> v == Scalar(Missing) || Present(Elements(v)) == []
    ensures r.Some? ==> Elements(r.value) == Present(Elements(v))
    ensures r.Some? && r.value.List? ==> |r.value.items| >= 2
  {
    if v == Scalar(Missing) then None
    else
      var elems := Present(Elements(v));
      if |elems| == 0 then None
      else if |elems| == 1 then Some(Scalar(elems[0]))
      else Some(List(elems))
  }

  /** For parameters whose elements are strings: an empty array removes the
      key, a one-element array becomes that string, and a longer array is
      sent as it is, in its order. An undefined value removes the key. */
  lemma NormalizedStrings(xs: seq<Item>)
    requires AllStrings(xs)
    ensures NormalizedValue(List(xs)) ==
      if |xs| == 0 then None else if |xs| == 1 then Some(Scalar(xs[0])) else Some(List(xs))
    ensures |xs| == 1 ==> NormalizedValue(Scalar(xs[0])) == Some(Scalar(xs[0]))
    ensures NormalizedValue(Scalar(Missing)) == None
  {
    PresentStrings(xs);
    if |xs| == 1 { PresentStrings([xs[0]]); }
  }

  /** A one-date array with a non-zero time is sent as that date's ISO string. */
  lemma NormalizedDate(t: int, iso: string)
    requires t != 0
    ensures NormalizedValue(List([Date(Num(t), iso)])) == Some(Scalar(Str(iso)))
  {
    PresentOne(Date(Num(t), iso));
  }

  /** No value that is sent holds an `undefined` element. */
  lemma NormalizedDefined(v: ParamValue)
    requires NormalizedValue(v).Some?
    ensures forall x :: x in Elements(NormalizedValue(v).value) ==> x != Missing
  {
  }

  /** What `request` promises about the params it sends: only keys of the
      caller's params, never `TIMEOUT_MS`, each with its normalised value,
      and every key whose value survives normalisation. */
  ghost predicate ParamsNormalized(params_: Params, params: Params) {
    && (forall k :: k in params ==>
          k in params_ && k != TimeoutParam && NormalizedValue(params_[k]) == Some(params[k]))
    && (forall k :: k in params_ && k != TimeoutParam && NormalizedValue(params_[k]).Some? ==> k in params)
  }

  /** The `for..in` loop of `request` over a copy of the caller's params,
      followed by the removal of `TIMEOUT_MS`. */
  method NormalizeParams(params_: Params) returns (params: Params)
    ensures ParamsNormalized(params_, params)
  {
    params := params_;
    var keys := params_.Keys;
    while keys != {}
      invariant keys <= params_.Keys
      invariant forall k :: k in keys ==> k in params && params[k] == params_[k]
      invariant forall k :: k in params ==> k in params_ && (k in keys || NormalizedValue(params_[k]) == Some(params[k]))
      invariant forall k :: k in params_ && k !in keys && NormalizedValue(params_[k]).Some? ==> k in params
      decreases keys
    {
      var key :| key in keys;
      if params[key] == Scalar(Missing) {
        params := params - {key};
      } else {
        var elems := Present(Elements(params[key]));
        if |elems| == 0 {
          params := params - {key};
        } else {
          params := params[key := if |elems| == 1 then Scalar(elems[0]) else List(elems)];
        }
      }
      keys := keys - {key};
    }
    params := params - {TimeoutParam};
  }

  // ---------------------------------------------------------------- timeout

  /** `!!v` for a parameter value: arrays and dates are always truthy. */
  predicate ParamTruthy(v: ParamValue)
    ensures v.List? ==> ParamTruthy(v)
    ensures v == Scalar(Missing) || v == Scalar(Str("")) ==> !ParamTruthy(v)
  {
    match v
    case Scalar(Missing) => false
    case Scalar(Str(s)) => s != ""
    case _ => true
  }

  /** `+v` for a parameter value: a date is its time, an empty array or one
      holding only `undefined` is 0, a one-string array reads as that string. */
  function Coerce(v: ParamValue): (r: Number)
    ensures v.Scalar? && v.item.Str? ==> r == ToNumber(v.item.s)
    ensures v == List([]) || v == List([Missing]) ==> r == Num(0)
    ensures forall s :: v == List([Str(s)]) ==> r == ToNumber(s)
    ensures r.Num? && v.Scalar? && v.item.Str? ==> r.value >= 0
  {
    match v
    case Scalar(Missing) => NaN
    case Scalar(Str(s)) => ToNumber(s)
    case Scalar(Date(t, _)) => t
    case List(xs) =>
      if xs == [] || xs == [Missing] then Num(0)
      else if |xs| == 1 && xs[0].Str? then ToNumber(xs[0].s)
      else NaN
  }

  function TimeoutMs(params_: Params): (t: Number)
    ensures TimeoutParam !in params_ ==> t == Num(DefaultTimeoutMs)
  {
    if TimeoutParam in params_ && ParamTruthy(params_[TimeoutParam])
    then Coerce(params_[TimeoutParam]) else Num(DefaultTimeoutMs)
  }

  /** A `TIMEOUT_MS` of `n` written in decimal, alone or as a one-element
      array, sets the timeout to `n` milliseconds. */
  lemma TimeoutOverride(params_: Params, n: nat)
    requires TimeoutParam in params_
    requires params_[TimeoutParam] == Scalar(Str(DecimalString(n))) ||
             params_[TimeoutParam] == List([Str(DecimalString(n))])
    ensures TimeoutMs(params_) == Num(n)
  {
    ToNumberDecimalString(n);
  }

  /** An undefined or empty `TIMEOUT_MS` leaves the default. */
  lemma TimeoutDefault(params_: Params)
    requires TimeoutParam in params_
    requires params_[TimeoutParam] == Scalar(Missing) || params_[TimeoutParam] == Scalar(Str(""))
    ensures TimeoutMs(params_) == Num(300000)
  {
  }

  // ---------------------------------------------------------------- request

  /** Everything `request` derives from its inputs before attaching credentials. */
  ghost predicate PreparedFrom(p: Prepared, baseUrl: string, verb: string, path: string,
                               params_: Params, headers_: Headers, data: Body) {
    && p.request.verb == verb
    && p.request.url == baseUrl + path
    && p.request.body == data
    && HeadersPrepared(headers_, data, p.request.headers, p.ignoreObserver)
    && ParamsNormalized(params_, p.request.params)
    && Accept in p.request.headers
    && p.responseType == ResponseTypeFor(p.request.headers[Accept])
    && p.timeoutMs == TimeoutMs(params_)
  }

  /** The header steps of `request`: copy the caller's map, fill in the
      defaults, decide observer suppression and remove the marker. */
  method PrepareHeaders(headers_: Headers, data: Body) returns (headers: Headers, ignoreObserver: bool)
    ensures HeadersPrepared(headers_, data, headers, ignoreObserver)
  {
    headers := headers_;
    if data.Payload? && !Truthy(headers, ContentType) { headers := headers[ContentType := ApplicationJson]; }
    if !Truthy(headers, Accept) { headers := headers[Accept := ApplicationJson]; }
    if !Truthy(headers, ClientHeader) { headers := headers[ClientHeader := ClientName]; }

    ignoreObserver := Truthy(headers, IgnoreObserver) || Truthy(headers_, Authorization);
    if Truthy(headers, IgnoreObserver) { headers := headers - {IgnoreObserver}; }
  }

  method Prepare(baseUrl: string, verb: string, path: string, params_: Params, headers_: Headers, data: Body)
    returns (p: Prepared)
    ensures PreparedFrom(p, baseUrl, verb, path, params_, headers_, data)
  {
    var headers, ignoreObserver := PrepareHeaders(headers_, data);
    var responseType := ResponseTypeFor(headers[Accept]);
    var timeoutMs := TimeoutMs(params_);
    var params := NormalizeParams(params_);
    p := Prepared(Request(verb, baseUrl + path, data, headers, params), responseType, timeoutMs, ignoreObserver);
  }

  /** Unless the caller asks for something else, responses are read as JSON;
      `application/octet-stream` is read as binary. */
  lemma ResponseTypeChoice(p: Prepared, baseUrl: string, verb: string, path: string,
                           params_: Params, headers_: Headers, data: Body)
    requires PreparedFrom(p, baseUrl, verb, path, params_, headers_, data)
    ensures !Truthy(headers_, Accept) ==> p.responseType == Json
    ensures Truthy(headers_, Accept) && headers_[Accept] == OctetStream ==> p.responseType == Blob
    ensures Truthy(headers_, Accept) && headers_[Accept] != OctetStream && headers_[Accept] != ApplicationJson ==>
              p.responseType == PlainText
  {
  }
}
