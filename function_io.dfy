/**
 * What the two serverless handlers (`fetch` and `bulk-import`) share: the
 * JSON value a request body parses into, JavaScript truthiness and template
 * stringification of such values, the environment the credentials are read
 * from, the stub product both handlers return, and the response they build.
 */
module FunctionIo {
  import opened Wrappers
  import opened Js

  // ---------------------------------------------------------------------------
  // Parsed request bodies

  /** A value `req.json()` can produce; numbers are integers here. */
  datatype Json =
    | JNull
    | JBool(b: bool)
    | JNumber(n: int)
    | JString(s: string)
    | JArray(items: seq<Json>)
    | JObject(fields: seq<(string, Json)>)

  /** The property `k` of parsed object fields: a repeated key keeps its last value, as `JSON.parse` does. */
  function Field(fields: seq<(string, Json)>, k: string): (v: Option<Json>)
    ensures v.Some? <==> exists i :: 0 <= i < |fields| && fields[i].0 == k
    ensures v.Some? ==> exists i :: 0 <= i < |fields| && fields[i] == (k, v.value)
    decreases |fields|
  {
    if |fields| == 0 then None
    else
      var last := fields[|fields| - 1];
      if last.0 == k then Some(last.1)
      else
        var v := Field(fields[..|fields| - 1], k);
        assert forall i :: 0 <= i < |fields| - 1 ==> fields[..|fields| - 1][i] == fields[i];
        v
  }

  /** The message of the TypeError thrown on destructuring `null`. */
  const NullDestructure := "Cannot destructure property of null"

  /**
   * `const {k} = value`: `null` cannot be destructured and throws; an object
   * gives its property or `undefined`; any other value has no such property.
   */
  function Destructure(value: Json, k: string): Result<Option<Json>, Option<string>> {
    match value
    case JNull => Err(Some(NullDestructure))
    case JObject(fields) => Ok(Field(fields, k))
    case _ => Ok(None)
  }

  /** `if (v)` on a property: `undefined`, `null`, `false`, `0` and `""` are falsy. */
  predicate TruthyValue(v: Option<Json>) {
    match v
    case None => false
    case Some(JNull) => false
    case Some(JBool(b)) => b
    case Some(JNumber(n)) => n != 0
    case Some(JString(s)) => s != ""
    case Some(_) => true
  }

  /** `${n}` for an integer. */
  function IntText(n: int): string {
    if n < 0 then "-" + Decimal(-n) else Decimal(n)
  }

  /** `${v}`: a string is itself, an array joins its elements' texts with ",", an object is `[object Object]`. */
  function Text(v: Json): string
    decreases v, 0
  {
    match v
    case JNull => "null"
    case JBool(b) => if b then "true" else "false"
    case JNumber(n) => IntText(n)
    case JString(s) => s
    case JArray(items) => Join(seq(|items|, i requires 0 <= i < |items| => ElementText(items[i])), ",")
    case JObject(_) => "[object Object]"
  }

  /** An array element inside `${array}`: `null` becomes the empty string. */
  function ElementText(v: Json): string
    decreases v, 1
  {
    if v.JNull? then "" else Text(v)
  }

  // ---------------------------------------------------------------------------
  // Environment

  /** `process.env`: the four variables the handlers read; neither handler uses the region it reads. */
  datatype Env = Env(accessKey: Option<string>, secretKey: Option<string>, partnerTag: Option<string>, region: Option<string>)

  /** `!accessKey || !secretKey || !partnerTag` is false. */
  predicate Configured(env: Env) {
    Js.Truthy(env.accessKey) && Js.Truthy(env.secretKey) && Js.Truthy(env.partnerTag)
  }

  const NotConfigured := "Amazon credentials not configured. Please set up your API credentials in the Amazon Settings document."

  // ---------------------------------------------------------------------------
  // Stub products

  datatype StubImage = StubImage(url: string, width: int, height: int)

  /** The product record the stubs return; `asin` is whatever value the request carried. */
  datatype StubProduct = StubProduct(
    asin: Json,
    title: string,
    url: string,
    brand: string,
    price: string,
    salePrice: string,
    currency: string,
    listPrice: string,
    images: seq<StubImage>)

  const StubImageSize := 1500

  /** The stub product for `asin` under the given title: fixed prices and one 1500x1500 image. */
  function Stub(asin: Json, title: string): (p: StubProduct)
    ensures p.asin == asin && p.title == title
    ensures p.url == "https://www.amazon.com/dp/" + Text(asin)
    ensures p.brand == "Brand" && p.currency == "USD"
    ensures p.price == "$24.99" && p.salePrice == "$19.99" && p.listPrice == "$29.99"
    ensures |p.images| == 1 && p.images[0].width == p.images[0].height == StubImageSize
    ensures p.images[0].url == "https://images-na.ssl-images-amazon.com/images/I/" + Text(asin) + "._SL1500_.jpg"
  {
    var a := Text(asin);
    StubProduct(asin, title, "https://www.amazon.com/dp/" + a, "Brand", "$24.99", "$19.99", "USD", "$29.99",
      [StubImage("https://images-na.ssl-images-amazon.com/images/I/" + a + "._SL1500_.jpg", StubImageSize, StubImageSize)])
  }

  // ---------------------------------------------------------------------------
  // Responses

  /** A response body: plain text, or the JSON serialisation of one of the two results. */
  datatype Body =
    | Plain(text: string)
    | ProductJson(product: StubProduct)
    | ImportJson(status: string, message: string, products: seq<StubProduct>)

  /** `new Response(body, {status, headers})`; `contentType` is the header the handler sets, if any. */
  datatype Response = Response(status: nat, contentType: Option<string>, body: Body)

  function PlainResponse(status: nat, text: string): Response {
    Response(status, None, Plain(text))
  }

  function JsonResponse(body: Body): Response {
    Response(200, Some("application/json"), body)
  }

  /** The catch clause: `Error: ${e?.message ?? 'unknown'}` with status 500. */
  function ErrorResponse(message: Option<string>): (r: Response)
    ensures r.status == 500 && r.body.Plain?
    ensures r.body.text == "Error: " + (if message.Some? then message.value else "unknown")
  {
    PlainResponse(500, "Error: " + (if message.Some? then message.value else "unknown"))
  }
}
