/**
 * The `bulk-import` serverless handler: reads the `asins` list from the
 * request body, requires one to ten entries, then checks that credentials
 * are configured, and answers with one stub product per entry, in order.
 */
module BulkImportFunction {
  import opened Wrappers
  import opened Js
  import opened FunctionIo

  const InvalidAsins := "Missing or invalid ASINs"
  const TooManyAsins := "Maximum 10 ASINs allowed"
  const MaxAsins := 10
  const MessagePrefix := "Successfully imported "
  const MessageSuffix := " products"

  /** The `asins` property when it is an array (`Array.isArray(asins)`). */
  function AsinList(body: Json): Option<seq<Json>>
    requires body != JNull
  {
    var asins := Destructure(body, "asins").value;
    if asins.Some? && asins.value.JArray? then Some(asins.value.items) else None
  }

  /** `Stubbed Product ${asin}` */
  function StubTitle(asin: Json): string {
    "Stubbed Product " + Text(asin)
  }

  /** `asins.map(asin => ({...}))`: one stub product per ASIN, in the same order. */
  function ImportedProducts(asins: seq<Json>): (products: seq<StubProduct>)
    ensures |products| == |asins|
    ensures forall i :: 0 <= i < |asins| ==> products[i].asin == asins[i] && products[i].title == StubTitle(asins[i])
    ensures forall i :: 0 <= i < |asins| ==> products[i] == Stub(asins[i], StubTitle(asins[i]))
  {
    seq(|asins|, i requires 0 <= i < |asins| => Stub(asins[i], StubTitle(asins[i])))
  }

  /** `Successfully imported ${importedProducts.length} products` */
  function SuccessMessage(n: nat): string {
    MessagePrefix + Decimal(n) + MessageSuffix
  }

  /**
   * `POST`, given what `req.json()` produced and the environment. A
   * missing, non-array or empty list and a list of more than ten are
   * rejected with 400 before the credentials are looked at.
   */
  function Post(parsed: Result<Json, Option<string>>, env: Env): (r: Response)
    ensures r.status in {200, 400, 500}
    ensures parsed.Err? ==> r == ErrorResponse(parsed.error)
    ensures parsed == Ok(JNull) ==> r == ErrorResponse(Some(NullDestructure))
    ensures r.status == 400 <==>
      parsed.Ok? && parsed.value != JNull && !(AsinList(parsed.value).Some? && 1 <= |AsinList(parsed.value).value| <= MaxAsins)
    ensures r.status == 400 ==>
      r.body == Plain(if AsinList(parsed.value).Some? && |AsinList(parsed.value).value| > MaxAsins then TooManyAsins else InvalidAsins)
    ensures r.status == 200 <==>
      && parsed.Ok? && parsed.value != JNull && AsinList(parsed.value).Some?
      && 1 <= |AsinList(parsed.value).value| <= MaxAsins && Configured(env)
    ensures r.status == 200 ==>
      var asins := AsinList(parsed.value).value;
      && r.contentType == Some("application/json") && r.body.ImportJson?
      && r.body.status == "success"
      && |r.body.products| == |asins|
      && (forall i :: 0 <= i < |asins| ==> r.body.products[i].asin == asins[i])
      && r.body.products == ImportedProducts(asins)
      && r.body.message == SuccessMessage(|asins|)
    ensures (&& parsed.Ok? && parsed.value != JNull && AsinList(parsed.value).Some?
             && 1 <= |AsinList(parsed.value).value| <= MaxAsins && !Configured(env)) ==>
      r == PlainResponse(500, NotConfigured)
  {
    match parsed
    case Err(message) => ErrorResponse(message)
    case Ok(body) =>
      match Destructure(body, "asins")
      case Err(message) => ErrorResponse(message)
      case Ok(asins) =>
        if !TruthyValue(asins) || !asins.value.JArray? || |asins.value.items| == 0 then PlainResponse(400, InvalidAsins)
        else if |asins.value.items| > MaxAsins then PlainResponse(400, TooManyAsins)
        else if !Configured(env) then PlainResponse(500, NotConfigured)
        else
          var products := ImportedProducts(asins.value.items);
          JsonResponse(ImportJson("success", SuccessMessage(|products|), products))
  }

  /** The count in the success message reads back as the number of products returned. */
  lemma {:induction false} MessageCountsProducts(parsed: Result<Json, Option<string>>, env: Env)
    requires Post(parsed, env).status == 200
    ensures var body := Post(parsed, env).body;
      var m := body.message;
      && |MessagePrefix| + |MessageSuffix| < |m|
      && AllDigits(m[|MessagePrefix|..|m| - |MessageSuffix|])
      && DecimalValue(m[|MessagePrefix|..|m| - |MessageSuffix|]) == |body.products|
  {
    var body := Post(parsed, env).body;
    var n := |body.products|;
    var m := body.message;
    assert m == MessagePrefix + Decimal(n) + MessageSuffix;
    assert m[|MessagePrefix|..|m| - |MessageSuffix|] == Decimal(n);
    DecimalRoundTrip(n);
  }
}
