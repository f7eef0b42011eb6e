/**
 * The packaged PA-API client (`AmazonClient` of the built plugin library): the
 * same region table as the frontend client, a 21-store marketplace table, a
 * canonical request that signs every header it builds before signing, in
 * sorted order, an Authorization header whose signed-header list is a fixed
 * text, and a product record that carries only the fields the response
 * supplies.
 */
module DistClient {
  import opened Wrappers
  import opened Js
  import opened PaApi
  import opened Foreign
  import opened Http
  import Regions
  import SigV4
  import Service

  datatype Credentials = Credentials(accessKey: string, secretKey: string, partnerTag: string, region: string)

  /** The medium image as the response gives it. */
  datatype Image = Image(url: Option<string>, width: Option<int>, height: Option<int>)

  /** The product record `transformProduct` builds: every field but `asin` and `url` may be absent. */
  datatype Product = Product(
    asin: string,
    title: Option<string>,
    brand: Option<string>,
    features: Option<seq<string>>,
    price: Option<string>,
    currency: Option<string>,
    salePrice: Option<string>,
    listPrice: Option<string>,
    images: Option<seq<Image>>,
    url: string)

  const EndpointPath := "/paapi5"
  const CanonicalUri := "/"
  const TargetPrefix := "com.amazon.paapi5.v1.ProductAdvertisingAPI."
  const ErrorPrefix := "Amazon API error: "
  const NoProductData := "No product data returned from Amazon API"
  const ProductStore := "www.amazon.com"

  /** The signed-header list the Authorization header states, whatever was signed. */
  const AuthorizationSignedHeaders := "host;x-amz-date;x-amz-target"
  const ListedHeaderNames: seq<string> := ["host", "x-amz-date", "x-amz-target"]

  /** The base header names as written, in the order `sort()` leaves them, and lower-cased. */
  const BaseNames: seq<string> := ["Content-Type", "X-Amz-Date", "X-Amz-Target", "Host"]
  const SortedBaseNames: seq<string> := ["Content-Type", "Host", "X-Amz-Date", "X-Amz-Target"]
  const SignedBaseNames: seq<string> := ["content-type"] + ListedHeaderNames

  /** The resources `testConnection` asks for. */
  const TestResources: seq<string> := ["Images.Primary.Medium", "ItemInfo.Title", "Offers.Listings.Price", "ItemInfo.Features"]

  /** The store each marketplace code sells on. */
  const Marketplaces: map<string, string> := map[
    "com" := "www.amazon.com",
    "ca" := "www.amazon.ca",
    "com.br" := "www.amazon.com.br",
    "com.mx" := "www.amazon.com.mx",
    "co.uk" := "www.amazon.co.uk",
    "de" := "www.amazon.de",
    "fr" := "www.amazon.fr",
    "it" := "www.amazon.it",
    "es" := "www.amazon.es",
    "co.jp" := "www.amazon.co.jp",
    "in" := "www.amazon.in",
    "com.au" := "www.amazon.com.au",
    "com.tr" := "www.amazon.com.tr",
    "ae" := "www.amazon.ae",
    "sa" := "www.amazon.sa",
    "se" := "www.amazon.se",
    "nl" := "www.amazon.nl",
    "pl" := "www.amazon.pl",
    "sg" := "www.amazon.sg",
    "eg" := "www.amazon.eg",
    "be" := "www.amazon.com.be"
  ]

  // ---------------------------------------------------------------------------
  // Headers and canonical request

  /** The headers `makeRequest` builds before it signs. */
  function BaseHeaders(timestamp: string, operation: string, host: string): Props {
    [("Content-Type", "application/json"),
     ("X-Amz-Date", timestamp),
     ("X-Amz-Target", TargetPrefix + operation),
     ("Host", host)]
  }

  /** `Object.keys(headers).sort()` */
  function SortedKeys(h: Props): seq<string> {
    Sort(Keys(h))
  }

  /** One `lowercase-name:value` line per header, in sorted key order. */
  function HeaderLines(h: Props): seq<string> {
    var keys := SortedKeys(h);
    seq(|keys|, i requires 0 <= i < |keys| => ToLower(keys[i]) + ":" + Str(Get(h, keys[i])))
  }

  /** The canonical header block: the lines, each ended by a newline. */
  function CanonicalHeaders(h: Props): string {
    Join(HeaderLines(h), "\n") + "\n"
  }

  /** The lower-cased names of all headers, in sorted key order. */
  function SignedNames(h: Props): seq<string> {
    var keys := SortedKeys(h);
    seq(|keys|, i requires 0 <= i < |keys| => ToLower(keys[i]))
  }

  /** The signed-header list inside the canonical request. */
  function SignedHeaderList(h: Props): string {
    Join(SignedNames(h), ";")
  }

  /** `createCanonicalRequest`: six fields joined by newlines, with `/` as the path. */
  function CanonicalRequest(p: Primitives, payload: GetItemsPayload, h: Props): string {
    Join(["POST", CanonicalUri, "", CanonicalHeaders(h), SignedHeaderList(h), Sha256Hex(p, p.stringify(payload))], "\n")
  }

  /** `{ ...headers, Authorization }`: the base headers with the Authorization header added last. */
  function SentHeaders(timestamp: string, operation: string, host: string, authorization: string): Props {
    BaseHeaders(timestamp, operation, host) + [("Authorization", authorization)]
  }

  /**
   * What `transformProduct` makes of an item: the ASIN and the US product
   * link always; title and brand when they are truthy; features, price and
   * currency as the response gives them; sale and list price only when the
   * listing has a saved amount; the medium image when there is one.
   */
  predicate Transformed(item: Item, asin: string, product: Product) {
    && product.asin == asin && product.url == DetailPageUrl(ProductStore, asin)
    && product.title == (if Truthy(Title(item)) then Title(item) else None)
    && product.brand == (if Truthy(Brand(item)) then Brand(item) else None)
    && product.features == FeatureList(item)
    && product.price == ListingAmount(item) && product.currency == ListingCurrency(item)
    && product.salePrice == (if SavedAmount(item).Some? then product.price else None)
    && product.listPrice == AmountText(SavedAmount(item))
    && (product.images.Some? <==> MediumImage(item).Some?)
    && (product.images.Some? ==>
          product.images.value == [Image(MediumImage(item).value.url, MediumImage(item).value.width, MediumImage(item).value.height)])
  }

  // ---------------------------------------------------------------------------
  // The client

  class AmazonClient {
    const credentials: Credentials
    const host: string
    const endpoint: string
    const awsRegion: string

    /** The fields agree with the region table, as the constructor sets them. */
    predicate Valid() {
      && host == Regions.Resolve(credentials.region).host
      && awsRegion == Regions.Resolve(credentials.region).awsRegion
      && endpoint == "https://" + host + EndpointPath
    }

    /** The region code picks host and signing region from the PA-API table; any other code gets the US store. */
    constructor (credentials: Credentials)
      ensures this.credentials == credentials
      ensures Valid()
    {
      this.credentials := credentials;
      var code := credentials.region;
      var h, r;
      if code == "com" {
        h, r := "webservices.amazon.com", "us-east-1";
        assert Regions.Resolve(code) == Regions.Endpoint(h, r);
      } else if code == "co.uk" {
        h, r := "webservices.amazon.co.uk", "eu-west-1";
        assert Regions.Resolve(code) == Regions.Endpoint(h, r);
      } else if code == "de" {
        h, r := "webservices.amazon.de", "eu-west-1";
        assert Regions.Resolve(code) == Regions.Endpoint(h, r);
      } else if code == "fr" {
        h, r := "webservices.amazon.fr", "eu-west-1";
        assert Regions.Resolve(code) == Regions.Endpoint(h, r);
      } else if code == "it" {
        h, r := "webservices.amazon.it", "eu-west-1";
        assert Regions.Resolve(code) == Regions.Endpoint(h, r);
      } else if code == "es" {
        h, r := "webservices.amazon.es", "eu-west-1";
        assert Regions.Resolve(code) == Regions.Endpoint(h, r);
      } else if code == "ca" {
        h, r := "webservices.amazon.ca", "us-east-1";
        assert Regions.Resolve(code) == Regions.Endpoint(h, r);
      } else if code == "com.au" {
        h, r := "webservices.amazon.com.au", "us-west-2";
        assert Regions.Resolve(code) == Regions.Endpoint(h, r);
      } else if code == "co.jp" {
        h, r := "webservices.amazon.co.jp", "ap-northeast-1";
        assert Regions.Resolve(code) == Regions.Endpoint(h, r);
      } else if code == "in" {
        h, r := "webservices.amazon.in", "ap-south-1";
        assert Regions.Resolve(code) == Regions.Endpoint(h, r);
      } else {
        h, r := "webservices.amazon.com", "us-east-1";
        assert Regions.Resolve(code) == Regions.Endpoint(h, r);
      }
      // Every branch's endpoint is its host's `/paapi5`.
      host, endpoint, awsRegion := h, "https://" + h + "/paapi5", r;
    }

    /**
     * `getMarketplace()`: the store of the client's marketplace code (Belgium's
     * under `com.be`), the US store for an unknown code.
     */
    function Marketplace(): (m: string)
      ensures credentials.region in Marketplaces && credentials.region != "be" ==> m == "www.amazon." + credentials.region
      ensures credentials.region == "be" ==> m == "www.amazon.com.be"
      ensures credentials.region !in Marketplaces ==> m == "www.amazon.com"
    {
      var code := credentials.region;
      OrDefault(if code in Marketplaces then Some(Marketplaces[code]) else None, "www.amazon.com")
    }

    /** The GetItems payload `testConnection` sends for one ASIN. */
    function TestPayload(asin: string): GetItemsPayload {
      GetItemsPayload([asin], credentials.partnerTag, PartnerType, Marketplace(), TestResources)
    }

    /** `createStringToSign`, for the client's signing region. */
    function CreateStringToSign(p: Primitives, timestamp: string, canonicalRequest: string): string {
      SigV4.StringToSign(p, timestamp, awsRegion, canonicalRequest)
    }

    /** `calculateSignature`, with the client's secret key and signing region. */
    function CalculateSignature(p: Primitives, stringToSign: string, date: string): string {
      SigV4.CalculateSignature(p, credentials.secretKey, awsRegion, stringToSign, date)
    }

    /** `createAuthorizationHeader`: the algorithm, a space, then the three parts joined by ", ". */
    function AuthorizationHeader(signature: string, date: string): string {
      SigV4.Algorithm + " Credential=" + credentials.accessKey + "/" + SigV4.CredentialScope(date, awsRegion)
        + ", SignedHeaders=" + AuthorizationSignedHeaders + ", Signature=" + signature
    }

    /**
     * The request `makeRequest` hands to `fetch`: the base headers spread
     * into a new object with the Authorization header after them, and the
     * serialised payload as body.
     */
    function SignedRequest(p: Primitives, operation: string, payload: GetItemsPayload, now: string): (r: Request)
      ensures r.url == endpoint && r.httpMethod == "POST" && r.body == p.stringify(payload)
      ensures Keys(r.headers) == ["Content-Type", "X-Amz-Date", "X-Amz-Target", "Host", "Authorization"]
      ensures Get(r.headers, "Content-Type") == Some("application/json") && Get(r.headers, "Host") == Some(host)
      ensures Get(r.headers, "X-Amz-Date") == Some(SigV4.Timestamp(now))
      ensures Get(r.headers, "X-Amz-Target") == Some(TargetPrefix + operation)
      ensures var timestamp := SigV4.Timestamp(now);
        var date := SigV4.DateStamp(timestamp);
        var canonicalRequest := CanonicalRequest(p, payload, BaseHeaders(timestamp, operation, host));
        Get(r.headers, "Authorization") ==
          Some(AuthorizationHeader(CalculateSignature(p, CreateStringToSign(p, timestamp, canonicalRequest), date), date))
    {
      var timestamp := SigV4.Timestamp(now);
      var date := SigV4.DateStamp(timestamp);
      var headers := BaseHeaders(timestamp, operation, host);
      var canonicalRequest := CanonicalRequest(p, payload, headers);
      var stringToSign := CreateStringToSign(p, timestamp, canonicalRequest);
      var signature := CalculateSignature(p, stringToSign, date);
      var authorization := AuthorizationHeader(signature, date);
      SentHeaderFacts(timestamp, operation, host, authorization);
      Request(endpoint, "POST", SentHeaders(timestamp, operation, host, authorization), p.stringify(payload))
    }

    /**
     * `makeRequest`: sends the signed request; a rejected fetch passes its
     * error on, a status outside 200-299 becomes
     * `Amazon API error: <status> - <body>`, and otherwise the parsed body
     * (or the parser's error) is the result.
     */
    function MakeRequest(p: Primitives, operation: string, payload: GetItemsPayload, now: string, send: Request -> Exchange): (r: Result<ApiResponse, string>)
      ensures var ex := send(SignedRequest(p, operation, payload, now));
        && (r.Ok? <==> ex.Responded? && StatusOk(ex.status) && ex.json.Ok?)
        && (ex.Responded? && StatusOk(ex.status) ==> r == ex.json)
        && (ex.Responded? && !StatusOk(ex.status) ==> r == Err(ErrorPrefix + Decimal(ex.status) + " - " + ex.text))
        && (ex.Rejected? ==> r == Err(ex.message))
    {
      match send(SignedRequest(p, operation, payload, now))
      case Rejected(message) => Err(message)
      case Responded(status, text, json) =>
        if !StatusOk(status) then Err(ErrorPrefix + Decimal(status) + " - " + text) else json
    }

    /**
     * `transformProduct`: starts from the ASIN alone and sets each field only
     * when the response has its source; the link always points at the US
     * store, whatever the marketplace.
     */
    method TransformProduct(item: Item, asin: string) returns (product: Product)
      ensures Transformed(item, asin, product)
      ensures product.listPrice.Some? ==> product.salePrice == product.price
    {
      product := Product(asin, None, None, None, None, None, None, None, None, "");
      if Truthy(Title(item)) {
        product := product.(title := Title(item));
      }
      if Truthy(Brand(item)) {
        product := product.(brand := Brand(item));
      }
      if FeatureList(item).Some? {
        product := product.(features := FeatureList(item));
      }
      var price := ListingPrice(item);
      if price.Some? {
        product := product.(price := price.value.displayAmount, currency := price.value.currency);
        if price.value.savedAmount.Some? {
          product := product.(salePrice := price.value.displayAmount, listPrice := price.value.savedAmount.value.displayAmount);
        }
      }
      var image := MediumImage(item);
      if image.Some? {
        product := product.(images := Some([Image(image.value.url, image.value.width, image.value.height)]));
      }
      product := product.(url := "https://www.amazon.com/dp/" + asin);
      UsStoreLink(asin);
    }

    /**
     * `testConnection`: requests one item and transforms the first one
     * returned; request errors pass through unchanged and a response without
     * items is an error of its own.
     */
    method TestConnection(p: Primitives, asin: string, now: string, send: Request -> Exchange) returns (r: Result<Product, string>)
      ensures var response := MakeRequest(p, Operation, TestPayload(asin), now, send);
        && (r.Ok? <==> response.Ok? && FirstItem(response.value).Some?)
        && (r.Ok? ==> Transformed(FirstItem(response.value).value, asin, r.value))
        && (response.Err? ==> r == Err(response.error))
        && (response.Ok? && FirstItem(response.value).None? ==> r == Err(NoProductData))
    {
      var response := MakeRequest(p, Operation, TestPayload(asin), now, send);
      if response.Err? {
        return Err(response.error);
      }
      var first := FirstItem(response.value);
      if first.Some? {
        var product := TransformProduct(first.value, asin);
        return Ok(product);
      }
      return Err(NoProductData);
    }
  }

  // ---------------------------------------------------------------------------
  // Properties

  /** The specification of `transformProduct` fixes every field: one item and ASIN give one product. */
  lemma TransformedUnique(item: Item, asin: string, p1: Product, p2: Product)
    requires Transformed(item, asin, p1) && Transformed(item, asin, p2)
    ensures p1 == p2
  {
  }

  /** An item without any field still gets its ASIN and its US product link, and nothing else. */
  lemma EmptyItemKeepsLink(asin: string, product: Product)
    requires Transformed(EmptyItem, asin, product)
    ensures product == Product(asin, None, None, None, None, None, None, None, None, DetailPageUrl(ProductStore, asin))
  {
  }

  /** For a code of the region table, the store and the PA-API host name the same Amazon domain. */
  lemma MarketplaceMatchesHost(c: AmazonClient)
    requires c.Valid() && c.credentials.region in Regions.Table
    ensures "webservices." + c.Marketplace()[4..] == c.host
  {
    var code := c.credentials.region;
    TableCodesHaveStores(code);
    Regions.StoreAndHost(code);
  }

  /** Every region-table code has a store of its own name. */
  lemma TableCodesHaveStores(code: string)
    requires code in Regions.Table
    ensures code in Marketplaces && code != "be"
  {
    assert code in {"com", "co.uk", "de", "fr", "it", "es", "ca", "com.au", "co.jp", "in"};
  }

  /**
   * The eleven stores the region table lacks are requested from the US host
   * and signed for `us-east-1`, while the payload names their own store.
   */
  lemma OtherStoresUseUsHost(c: AmazonClient)
    requires c.Valid() && c.credentials.region in Marketplaces && c.credentials.region !in Regions.Table
    ensures c.host == Regions.UsEndpoint.host && c.awsRegion == Regions.UsEndpoint.awsRegion
    ensures c.Marketplace() != "www.amazon.com"
  {
    var code := c.credentials.region;
    var m := c.Marketplace();
    if code == "be" {
      assert m[14..] == ".be";
    } else {
      assert m[11..] == code;
      assert code != "com";
    }
  }

  /**
   * The header block and the signed-header list come from the same sorted
   * keys: line i is the i-th signed name, a colon and that header's value.
   */
  lemma BlockMatchesList(h: Props)
    requires |h| >= 1
    requires forall i :: 0 <= i < |h| ==> ';' !in h[i].0
    ensures Split(SignedHeaderList(h), ';') == SignedNames(h)
    ensures |HeaderLines(h)| == |SignedNames(h)| == |h|
    ensures forall i :: 0 <= i < |h| ==> HeaderLines(h)[i] == SignedNames(h)[i] + ":" + Str(Get(h, SortedKeys(h)[i]))
  {
    SortedKeysOf(h);
    var keys := SortedKeys(h);
    forall i | 0 <= i < |keys|
      ensures ';' !in SignedNames(h)[i]
    {
      var j :| 0 <= j < |h| && h[j].0 == keys[i];
      ToLowerAvoids(keys[i], ';');
    }
    SplitJoin(SignedNames(h), ';');
  }

  /**
   * The Authorization header reads back, split at its commas, into the
   * algorithm with the credential (access key and the scope of the string to
   * sign), the fixed signed-header list and the signature.
   */
  lemma AuthorizationFields(c: AmazonClient, signature: string, date: string)
    requires ',' !in c.credentials.accessKey && ',' !in date && ',' !in c.awsRegion && ',' !in signature
    ensures Split(c.AuthorizationHeader(signature, date), ',') ==
      [SigV4.Algorithm + " Credential=" + c.credentials.accessKey + "/" + SigV4.CredentialScope(date, c.awsRegion),
       " SignedHeaders=" + AuthorizationSignedHeaders,
       " Signature=" + signature]
  {
    var a := SigV4.Algorithm + " Credential=" + c.credentials.accessKey + "/" + SigV4.CredentialScope(date, c.awsRegion);
    var b := " SignedHeaders=" + AuthorizationSignedHeaders;
    var d := " Signature=" + signature;
    AuthorizationParts(c, signature, date);
    assert ',' !in a;
    SplitThree(a, b, d, ',');
  }

  /** The Authorization header is three parts with a comma between each two. */
  lemma AuthorizationParts(c: AmazonClient, signature: string, date: string)
    ensures c.AuthorizationHeader(signature, date) ==
      (SigV4.Algorithm + " Credential=" + c.credentials.accessKey + "/" + SigV4.CredentialScope(date, c.awsRegion))
        + [','] + (" SignedHeaders=" + AuthorizationSignedHeaders) + [','] + (" Signature=" + signature)
  {
    assert ", SignedHeaders=" == [','] + " SignedHeaders=";
    assert ", Signature=" == [','] + " Signature=";
    Regroup(SigV4.Algorithm + " Credential=" + c.credentials.accessKey + "/" + SigV4.CredentialScope(date, c.awsRegion),
            ", SignedHeaders=", " SignedHeaders=", AuthorizationSignedHeaders, ", Signature=", " Signature=", signature);
  }

  /** Two separators that each start with a comma mark the boundaries of three parts. */
  lemma Regroup(x: string, p1: string, q1: string, l: string, p2: string, q2: string, s: string)
    requires p1 == [','] + q1 && p2 == [','] + q2
    ensures x + p1 + l + p2 + s == x + [','] + (q1 + l) + [','] + (q2 + s)
  {
  }

  /** The base headers carry four distinct names, in the order written. */
  lemma BaseHeaderKeys(timestamp: string, operation: string, host: string)
    ensures Keys(BaseHeaders(timestamp, operation, host)) == BaseNames
  {
    var h := BaseHeaders(timestamp, operation, host);
    assert Keys(h[3..]) == ["Host"];
    assert Keys(h[2..]) == ["X-Amz-Target", "Host"];
    assert Keys(h[1..]) == ["X-Amz-Date", "X-Amz-Target", "Host"];
  }

  /** The sent headers are the four base headers and Authorization, each holding the value the client wrote. */
  lemma SentHeaderFacts(timestamp: string, operation: string, host: string, authorization: string)
    ensures Keys(SentHeaders(timestamp, operation, host, authorization)) == ["Content-Type", "X-Amz-Date", "X-Amz-Target", "Host", "Authorization"]
    ensures Get(SentHeaders(timestamp, operation, host, authorization), "Content-Type") == Some("application/json")
    ensures Get(SentHeaders(timestamp, operation, host, authorization), "X-Amz-Date") == Some(timestamp)
    ensures Get(SentHeaders(timestamp, operation, host, authorization), "X-Amz-Target") == Some(TargetPrefix + operation)
    ensures Get(SentHeaders(timestamp, operation, host, authorization), "Host") == Some(host)
    ensures Get(SentHeaders(timestamp, operation, host, authorization), "Authorization") == Some(authorization)
  {
    SentKeys(timestamp, operation, host, authorization);
    BaseGets(timestamp, operation, host);
    SentKeeps(timestamp, operation, host, authorization, "Content-Type");
    SentKeeps(timestamp, operation, host, authorization, "X-Amz-Date");
    SentKeeps(timestamp, operation, host, authorization, "X-Amz-Target");
    SentKeeps(timestamp, operation, host, authorization, "Host");
  }

  /** The sent headers are named as the base headers, with Authorization last. */
  lemma SentKeys(timestamp: string, operation: string, host: string, authorization: string)
    ensures Keys(SentHeaders(timestamp, operation, host, authorization)) == ["Content-Type", "X-Amz-Date", "X-Amz-Target", "Host", "Authorization"]
    ensures Get(SentHeaders(timestamp, operation, host, authorization), "Authorization") == Some(authorization)
  {
    BaseHeaderKeys(timestamp, operation, host);
    SentIsPut(timestamp, operation, host, authorization);
    assert "Authorization" !in BaseNames;
  }

  /** The base headers hold the values the client wrote. */
  lemma BaseGets(timestamp: string, operation: string, host: string)
    ensures var b := BaseHeaders(timestamp, operation, host);
      && Get(b, "Content-Type") == Some("application/json")
      && Get(b, "X-Amz-Date") == Some(timestamp)
      && Get(b, "X-Amz-Target") == Some(TargetPrefix + operation)
      && Get(b, "Host") == Some(host)
  {
    var b := BaseHeaders(timestamp, operation, host);
    BaseHeaderKeys(timestamp, operation, host);
    GetFirst(b, 0);
    GetFirst(b, 1);
    GetFirst(b, 2);
    GetFirst(b, 3);
  }

  /** Adding Authorization leaves every other header as the base headers have it. */
  lemma SentKeeps(timestamp: string, operation: string, host: string, authorization: string, k: string)
    requires k != "Authorization"
    ensures Get(SentHeaders(timestamp, operation, host, authorization), k) == Get(BaseHeaders(timestamp, operation, host), k)
  {
    SentIsPut(timestamp, operation, host, authorization);
  }

  /** Spreading the base headers and adding Authorization is assigning it to them: it is a new name. */
  lemma SentIsPut(timestamp: string, operation: string, host: string, authorization: string)
    ensures SentHeaders(timestamp, operation, host, authorization) == Put(BaseHeaders(timestamp, operation, host), "Authorization", authorization)
  {
    BaseHeaderKeys(timestamp, operation, host);
    PutNew(BaseHeaders(timestamp, operation, host), "Authorization", authorization);
  }

  /** `sort()` orders the base header names by code unit: `Content-Type`, `Host`, `X-Amz-Date`, `X-Amz-Target`. */
  lemma BaseKeysSorted(h: Props)
    requires Keys(h) == BaseNames
    ensures SortedKeys(h) == SortedBaseNames
  {
    assert multiset(Keys(h)) == multiset(SortedBaseNames) by {
      BaseNamesPermuted();
    }
    SortedBaseNamesSorted();
    SortedUnique(SortedKeys(h), SortedBaseNames);
  }

  lemma SortedBaseNamesSorted()
    ensures Sorted(SortedBaseNames)
  {
    assert NotAfter("Content-Type", "Host") && NotAfter("Host", "X-Amz-Date");
    assert NotAfter("X-Amz-Date", "X-Amz-Target");
    SortedFour("Content-Type", "Host", "X-Amz-Date", "X-Amz-Target");
  }

  lemma BaseNamesPermuted()
    ensures multiset(BaseNames) == multiset(SortedBaseNames)
  {
  }

  /**
   * The canonical request signs all four base headers, `content-type`
   * first, while the Authorization header lists only the last three.
   */
  lemma SignedBaseHeaders(h: Props)
    requires Keys(h) == BaseNames
    ensures SignedNames(h) == SignedBaseNames
  {
    BaseKeysSorted(h);
    LowerBaseNames();
    SignedNamesAre(h, SignedBaseNames);
  }

  /**
   * Read back, the signed-header list of the canonical request is the
   * Authorization header's list with `content-type` in front.
   */
  lemma SignedListExceedsListed(h: Props)
    requires Keys(h) == BaseNames
    ensures Split(SignedHeaderList(h), ';') == ["content-type"] + Split(AuthorizationSignedHeaders, ';')
  {
    var names := SignedNames(h);
    assert names == SignedBaseNames by {
      SignedBaseHeaders(h);
    }
    assert Avoid(names, ';') by {
      SignedNamesPlain();
    }
    SplitJoin(names, ';');
    assert Split(AuthorizationSignedHeaders, ';') == ListedHeaderNames by {
      ListedNames();
    }
  }

  lemma SignedNamesPlain()
    ensures Avoid(SignedBaseNames, ';')
  {
  }

  /** The signed names are the sorted keys, each lower-cased. */
  lemma SignedNamesAre(h: Props, lower: seq<string>)
    requires |lower| == |SortedKeys(h)|
    requires forall i :: 0 <= i < |lower| ==> ToLower(SortedKeys(h)[i]) == lower[i]
    ensures SignedNames(h) == lower
  {
  }

  lemma LowerBaseNames()
    ensures |SignedBaseNames| == |SortedBaseNames|
    ensures forall i :: 0 <= i < |SignedBaseNames| ==> ToLower(SortedBaseNames[i]) == SignedBaseNames[i]
  {
    forall i | 0 <= i < 4
      ensures ToLower(SortedBaseNames[i]) == SignedBaseNames[i]
    {
      assert LowerIs(SortedBaseNames[i], SignedBaseNames[i]);
      LowerIsToLower(SortedBaseNames[i], SignedBaseNames[i]);
    }
  }

  /** The fields of the canonical request, with the header block spliced in as lines. */
  function Fields(p: Primitives, payload: GetItemsPayload, h: Props): seq<string> {
    ["POST", CanonicalUri, ""] + HeaderLines(h) + ["", SignedHeaderList(h), Sha256Hex(p, p.stringify(payload))]
  }

  /**
   * The canonical request reads back into its fields, with one line for
   * every header sent, when no header name or value holds a newline.
   */
  lemma CanonicalRequestFields(p: Primitives, payload: GetItemsPayload, h: Props)
    requires |h| >= 1
    requires forall i :: 0 <= i < |h| ==> '\n' !in h[i].0 && '\n' !in h[i].1
    ensures Split(CanonicalRequest(p, payload, h), '\n') == Fields(p, payload, h)
    ensures |Fields(p, payload, h)| == |h| + 6
  {
    SortedKeysOf(h);
    CanonicalRequestFlat(p, payload, h);
    FieldsAvoid(p, payload, h);
    SplitJoin(Fields(p, payload, h), '\n');
  }

  /** `sort()` keeps every key: one line and one signed name per header. */
  lemma SortedKeysOf(h: Props)
    ensures |SortedKeys(h)| == |h|
    ensures forall i :: 0 <= i < |SortedKeys(h)| ==> exists j :: 0 <= j < |h| && h[j].0 == SortedKeys(h)[i]
  {
    KeysAt(h);
    var keys := SortedKeys(h);
    assert |keys| == |multiset(keys)| == |multiset(Keys(h))| == |Keys(h)|;
    forall i | 0 <= i < |keys|
      ensures exists j :: 0 <= j < |h| && h[j].0 == keys[i]
    {
      assert keys[i] in multiset(Keys(h));
      var j :| 0 <= j < |Keys(h)| && Keys(h)[j] == keys[i];
      assert h[j].0 == keys[i];
    }
  }

  lemma CanonicalRequestFlat(p: Primitives, payload: GetItemsPayload, h: Props)
    requires |h| >= 1
    ensures CanonicalRequest(p, payload, h) == Join(Fields(p, payload, h), "\n")
  {
    SortedKeysOf(h);
    var hash := Sha256Hex(p, p.stringify(payload));
    var head := ["POST", CanonicalUri, ""];
    var rest := [SignedHeaderList(h), hash];
    assert ["POST", CanonicalUri, "", CanonicalHeaders(h), SignedHeaderList(h), hash] == head + [CanonicalHeaders(h)] + rest;
    JoinBlock(head, HeaderLines(h), rest, "\n");
    assert head + HeaderLines(h) + [""] + rest == Fields(p, payload, h);
  }

  lemma FieldsAvoid(p: Primitives, payload: GetItemsPayload, h: Props)
    requires forall i :: 0 <= i < |h| ==> '\n' !in h[i].0 && '\n' !in h[i].1
    ensures Avoid(Fields(p, payload, h), '\n')
  {
    var hash := Sha256Hex(p, p.stringify(payload));
    HeaderLinesAvoid(h);
    JoinAvoids(SignedNames(h), ";", '\n');
    assert '\n' !in hash;
    FixedFieldsAvoid();
    AvoidAppend(["POST", CanonicalUri, ""], HeaderLines(h), '\n');
    AvoidAppend(["POST", CanonicalUri, ""] + HeaderLines(h), ["", SignedHeaderList(h), hash], '\n');
  }

  /** The fields the client writes out hold no newline. */
  lemma FixedFieldsAvoid()
    ensures Avoid(["POST", CanonicalUri, ""], '\n')
  {
  }

  /** Neither a header line nor a signed name holds a newline when no header name or value does. */
  lemma HeaderLinesAvoid(h: Props)
    requires forall i :: 0 <= i < |h| ==> '\n' !in h[i].0 && '\n' !in h[i].1
    ensures Avoid(HeaderLines(h), '\n') && Avoid(SignedNames(h), '\n')
  {
    SortedKeysOf(h);
    var keys := SortedKeys(h);
    GetAvoids(h, "", '\n');
    assert '\n' !in "undefined";
    forall i | 0 <= i < |keys|
      ensures '\n' !in ToLower(keys[i]) && '\n' !in ToLower(keys[i]) + ":" + Str(Get(h, keys[i]))
    {
      var j :| 0 <= j < |h| && h[j].0 == keys[i];
      ToLowerAvoids(keys[i], '\n');
      GetAvoids(h, keys[i], '\n');
      LineAvoids(ToLower(keys[i]), Get(h, keys[i]), '\n');
    }
  }

  /** The three names the Authorization header lists. */
  lemma ListedNames()
    ensures Split(AuthorizationSignedHeaders, ';') == ListedHeaderNames
  {
    ListedText();
    SplitThree("host", "x-amz-date", "x-amz-target", ';');
  }

  /** The text of the list, piece by piece. */
  lemma ListedText()
    ensures AuthorizationSignedHeaders == "host" + [';'] + "x-amz-date" + [';'] + "x-amz-target"
    ensures ';' !in "host" && ';' !in "x-amz-date" && ';' !in "x-amz-target"
  {
  }

  /**
   * The Authorization header lists three headers while the signature covers
   * the four the client sent before it: a service that rebuilds the canonical
   * request over the listed headers, for whatever path, hashes a request with
   * one header line fewer than the one the client signed.
   */
  lemma ServiceCanonicalDiffers(p: Primitives, payload: GetItemsPayload, timestamp: string, operation: string, host: string,
                                authorization: string, url: string, path: string)
    requires '\n' !in timestamp && '\n' !in operation && '\n' !in host && '\n' !in path
    ensures var r := Request(url, "POST", SentHeaders(timestamp, operation, host, authorization), p.stringify(payload));
      Service.CanonicalRequest(p, r, path, Split(AuthorizationSignedHeaders, ';')) != CanonicalRequest(p, payload, BaseHeaders(timestamp, operation, host))
  {
    var r := Request(url, "POST", SentHeaders(timestamp, operation, host, authorization), p.stringify(payload));
    assert |Split(Service.CanonicalRequest(p, r, path, Split(AuthorizationSignedHeaders, ';')), '\n')| == 9 by {
      ListedNames();
      ServiceLineCount(p, payload, timestamp, operation, host, authorization, url, path);
    }
    assert |Split(CanonicalRequest(p, payload, BaseHeaders(timestamp, operation, host)), '\n')| == 10 by {
      ClientLineCount(p, payload, timestamp, operation, host);
    }
  }

  /**
   * For every request the client signs, the canonical request the service
   * rebuilds from the Authorization header's list, on whatever path, is not
   * the one the client hashed into its signature.
   */
  lemma ServiceRejectsRequest(c: AmazonClient, p: Primitives, operation: string, payload: GetItemsPayload, now: string, path: string)
    requires c.Valid() && '\n' !in now && '\n' !in operation && '\n' !in path
    ensures Service.CanonicalRequest(p, c.SignedRequest(p, operation, payload, now), path, Split(AuthorizationSignedHeaders, ';'))
      != CanonicalRequest(p, payload, BaseHeaders(SigV4.Timestamp(now), operation, c.host))
  {
    var timestamp := SigV4.Timestamp(now);
    var date := SigV4.DateStamp(timestamp);
    var signature := c.CalculateSignature(p, c.CreateStringToSign(p, timestamp, CanonicalRequest(p, payload, BaseHeaders(timestamp, operation, c.host))), date);
    var authorization := c.AuthorizationHeader(signature, date);
    assert c.SignedRequest(p, operation, payload, now) == Request(c.endpoint, "POST", SentHeaders(timestamp, operation, c.host, authorization), p.stringify(payload));
    SigV4.TimestampAvoids(now, '\n');
    Regions.HostIsOneLine(c.credentials.region);
    ServiceCanonicalDiffers(p, payload, timestamp, operation, c.host, authorization, c.endpoint, path);
  }

  /** The client's canonical request has ten lines: four of them headers. */
  lemma ClientLineCount(p: Primitives, payload: GetItemsPayload, timestamp: string, operation: string, host: string)
    requires '\n' !in timestamp && '\n' !in operation && '\n' !in host
    ensures |Split(CanonicalRequest(p, payload, BaseHeaders(timestamp, operation, host)), '\n')| == 10
  {
    BaseValuesAvoid(timestamp, operation, host);
    CanonicalRequestFields(p, payload, BaseHeaders(timestamp, operation, host));
  }

  /** The service's canonical request over the three listed headers has nine lines. */
  lemma ServiceLineCount(p: Primitives, payload: GetItemsPayload, timestamp: string, operation: string, host: string,
                         authorization: string, url: string, path: string)
    requires '\n' !in timestamp && '\n' !in operation && '\n' !in host && '\n' !in path
    ensures var r := Request(url, "POST", SentHeaders(timestamp, operation, host, authorization), p.stringify(payload));
      |Split(Service.CanonicalRequest(p, r, path, ListedHeaderNames), '\n')| == 9
  {
    var r := Request(url, "POST", SentHeaders(timestamp, operation, host, authorization), p.stringify(payload));
    SentListedAvoid(timestamp, operation, host, authorization);
    ListedNamesAvoid();
    Service.CanonicalRequestFields(p, r, path, ListedHeaderNames);
  }

  /** The values the service finds under the listed names hold no newline. */
  lemma SentListedAvoid(timestamp: string, operation: string, host: string, authorization: string)
    requires '\n' !in timestamp && '\n' !in operation && '\n' !in host
    ensures forall k :: 0 <= k < |ListedHeaderNames| ==>
      '\n' !in Str(Service.HeaderLookup(SentHeaders(timestamp, operation, host, authorization), ListedHeaderNames[k]))
  {
    BaseValuesOneLine(timestamp, operation, host);
    AppendedListedAvoid(BaseHeaders(timestamp, operation, host), authorization);
  }

  /** With the Authorization header appended, the listed names still find only values without a newline. */
  lemma AppendedListedAvoid(h: Props, authorization: string)
    requires ValuesAvoid(h, '\n')
    ensures forall k :: 0 <= k < |ListedHeaderNames| ==>
      '\n' !in Str(Service.HeaderLookup(h + [("Authorization", authorization)], ListedHeaderNames[k]))
  {
    var names := ListedHeaderNames;
    assert |"Authorization"| == 13 && '\n' !in "undefined";
    forall k | 0 <= k < |names|
      ensures '\n' !in Str(Service.HeaderLookup(h + [("Authorization", authorization)], names[k]))
    {
      assert |names[k]| != 13;
      Service.AppendedLookupAvoids(h, "Authorization", authorization, names[k], '\n');
    }
  }

  /** The listed names are three and hold no newline. */
  lemma ListedNamesAvoid()
    ensures |ListedHeaderNames| == 3 && Avoid(ListedHeaderNames, '\n')
  {
  }

  /** No base header name or value holds a newline when the timestamp, operation and host do not. */
  lemma BaseValuesAvoid(timestamp: string, operation: string, host: string)
    requires '\n' !in timestamp && '\n' !in operation && '\n' !in host
    ensures var h := BaseHeaders(timestamp, operation, host);
      forall i :: 0 <= i < |h| ==> '\n' !in h[i].0 && '\n' !in h[i].1
  {
    assert '\n' !in TargetPrefix;
  }

  /** No base header value holds a newline when the timestamp, operation and host do not. */
  lemma BaseValuesOneLine(timestamp: string, operation: string, host: string)
    requires '\n' !in timestamp && '\n' !in operation && '\n' !in host
    ensures ValuesAvoid(BaseHeaders(timestamp, operation, host), '\n')
  {
    assert '\n' !in TargetPrefix;
  }
}
