/**
 * The `fetch` serverless handler: reads `asin` from the request body, checks
 * it, then checks that credentials are configured, and answers with a stub
 * product built from the ASIN alone.
 */
module FetchFunction {
  import opened Wrappers
  import opened FunctionIo
  import PaApi

  const MissingAsin := "Missing asin"
  const StubTitle := "Stubbed Product Title"

  /**
   * `POST`, given what `req.json()` produced (a value, or the message of
   * what it threw) and the environment. The asin is checked before the
   * credentials; every thrown error becomes a 500 `Error: ...` response.
   */
  function Post(parsed: Result<Json, Option<string>>, env: Env): (r: Response)
    ensures r.status in {200, 400, 500}
    ensures parsed.Err? ==> r == ErrorResponse(parsed.error)
    ensures parsed == Ok(JNull) ==> r == ErrorResponse(Some(NullDestructure))
    ensures r.status == 400 <==> parsed.Ok? && parsed.value != JNull && !TruthyValue(Destructure(parsed.value, "asin").value)
    ensures r.status == 400 ==> r.body == Plain(MissingAsin)
    ensures r.status == 200 <==>
      parsed.Ok? && parsed.value != JNull && TruthyValue(Destructure(parsed.value, "asin").value) && Configured(env)
    ensures r.status == 200 ==>
      var asin := Destructure(parsed.value, "asin").value.value;
      && r.contentType == Some("application/json")
      && r.body == ProductJson(Stub(asin, StubTitle))
    ensures parsed.Ok? && parsed.value != JNull && TruthyValue(Destructure(parsed.value, "asin").value) && !Configured(env) ==>
      r == PlainResponse(500, NotConfigured)
  {
    match parsed
    case Err(message) => ErrorResponse(message)
    case Ok(body) =>
      match Destructure(body, "asin")
      case Err(message) => ErrorResponse(message)
      case Ok(asin) =>
        if !TruthyValue(asin) then PlainResponse(400, MissingAsin)
        else if !Configured(env) then PlainResponse(500, NotConfigured)
        else JsonResponse(ProductJson(Stub(asin.value, StubTitle)))
  }

  /**
   * Once the credentials are configured, the answer depends on the asin
   * alone: neither their values, nor the region, nor any other field of the
   * body changes it.
   */
  lemma OnlyAsinMatters(body1: Json, env1: Env, body2: Json, env2: Env)
    requires body1 != JNull && body2 != JNull && Configured(env1) && Configured(env2)
    requires Destructure(body1, "asin") == Destructure(body2, "asin")
    ensures Post(Ok(body1), env1) == Post(Ok(body2), env2)
  {
  }

  /**
   * For a string asin the stub links to the same product page as the
   * packaged client, and the link reads back the asin.
   */
  lemma StubLinksProductPage(body: Json, env: Env, asin: string)
    requires body.JObject? && Field(body.fields, "asin") == Some(JString(asin)) && asin != "" && Configured(env)
    ensures Post(Ok(body), env).body.ProductJson?
    ensures Post(Ok(body), env).body.product.url == PaApi.DetailPageUrl("www.amazon.com", asin)
    ensures Post(Ok(body), env).body.product.url[|"https://www.amazon.com/dp/"|..] == asin
  {
    assert Post(Ok(body), env).body == ProductJson(Stub(JString(asin), StubTitle)) by {
      assert Destructure(body, "asin") == Ok(Some(JString(asin)));
      assert TruthyValue(Some(JString(asin)));
    }
    StubUrl(asin);
  }

  /** The stub of a string asin links to that asin's page in the US store. */
  lemma StubUrl(asin: string)
    ensures Stub(JString(asin), StubTitle).url == PaApi.DetailPageUrl("www.amazon.com", asin)
    ensures Stub(JString(asin), StubTitle).url[|"https://www.amazon.com/dp/"|..] == asin
  {
    assert Stub(JString(asin), StubTitle).url == "https://www.amazon.com/dp/" + asin by {
      assert Text(JString(asin)) == asin;
    }
    PaApi.UsStoreLink(asin);
  }
}
