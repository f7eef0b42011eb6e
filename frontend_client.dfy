/**
 * The frontend-integration PA-API client (`AmazonClient` of the frontend
 * example): it resolves the region to a host, signs a GetItems request with
 * AWS Signature Version 4 over four fixed headers, and turns the first
 * returned item into a product record with defaults for every missing field.
 */
module FrontendClient {
  import opened Wrappers
  import opened Js
  import opened PaApi
  import opened Foreign
  import opened Http
  import Regions
  import SigV4
  import Service

  datatype Credentials = Credentials(accessKey: string, secretKey: string, partnerTag: string, region: string)

  /** One entry of `images`: the primary large image. */
  datatype Image = Image(key: string, url: string, width: int, height: int)

  /** The product record `transformProduct` returns. */
  datatype Product = Product(
    asin: string,
    title: string,
    brand: string,
    price: string,
    salePrice: Option<string>,
    currency: string,
    listPrice: Option<string>,
    images: seq<Image>,
    features: seq<string>,
    url: string,
    lastSyncedAt: string,
    item: Item)

  const CanonicalUri := "/paapi5/getitems"
  const TargetPrefix := "com.amazon.paapi5.v1.ProductAdvertisingAPIv1."
  const ErrorPrefix := "Amazon API error: "
  const NoProductData := "No product data returned from Amazon API"
  const DefaultImageSize := 500
  const LargeImageKey := "primary-large"

  /** The resources a GetItems request asks for. */
  const Resources: seq<string> := [
    "ItemInfo.Title", "ItemInfo.Features", "ItemInfo.ByLineInfo", "ItemInfo.ManufactureInfo",
    "ItemInfo.ProductInfo", "ItemInfo.TechnicalInfo", "Offers.Listings.Price",
    "Offers.Listings.SavingBasis", "Offers.Summaries.HighestPrice", "Offers.Summaries.LowestPrice",
    "Images.Primary.Large"]

  /** The headers that are signed, in the order they are listed. */
  const EssentialHeaders: seq<string> := ["content-encoding", "host", "x-amz-date", "x-amz-target"]

  /** The store each region code sells on. */
  const Marketplaces: map<string, string> := map[
    "com" := "www.amazon.com",
    "co.uk" := "www.amazon.co.uk",
    "de" := "www.amazon.de",
    "fr" := "www.amazon.fr",
    "it" := "www.amazon.it",
    "es" := "www.amazon.es",
    "ca" := "www.amazon.ca",
    "com.au" := "www.amazon.com.au",
    "co.jp" := "www.amazon.co.jp",
    "in" := "www.amazon.in"
  ]

  // ---------------------------------------------------------------------------
  // Headers and canonical request

  /** The headers `makeRequest` builds before it signs. */
  function BaseHeaders(timestamp: string, operation: string, host: string): Props {
    [("Content-Type", "application/json"),
     ("X-Amz-Date", timestamp),
     ("X-Amz-Target", TargetPrefix + operation),
     ("content-encoding", "amz-1.0"),
     ("Host", host)]
  }

  /** The base headers carry five distinct names, in the order written. */
  lemma BaseHeaderKeys(timestamp: string, operation: string, host: string)
    ensures Keys(BaseHeaders(timestamp, operation, host)) == ["Content-Type", "X-Amz-Date", "X-Amz-Target", "content-encoding", "Host"]
  {
    var h := BaseHeaders(timestamp, operation, host);
    assert Keys(h[4..]) == ["Host"];
    assert Keys(h[3..]) == ["content-encoding", "Host"];
    assert Keys(h[2..]) == ["X-Amz-Target", "content-encoding", "Host"];
    assert Keys(h[1..]) == ["X-Amz-Date", "X-Amz-Target", "content-encoding", "Host"];
  }

  /**
   * The value a signed header takes in the canonical block: the lower-case
   * key when it holds a truthy value, otherwise the capitalised key the
   * request is built with.
   */
  function HeaderValue(h: Props, key: string): Option<string> {
    var v := Get(h, key);
    if Truthy(v) then v
    else if key == "x-amz-date" then Get(h, "X-Amz-Date")
    else if key == "x-amz-target" then Get(h, "X-Amz-Target")
    else if key == "host" then Get(h, "Host")
    else if key == "content-encoding" then Get(h, "content-encoding")
    else v
  }

  /** One `key:value` line per signed header. */
  function HeaderLines(h: Props): seq<string> {
    seq(|EssentialHeaders|, i requires 0 <= i < |EssentialHeaders| =>
      EssentialHeaders[i] + ":" + Str(HeaderValue(h, EssentialHeaders[i])))
  }

  /** The canonical header block: the lines, each ended by a newline. */
  function CanonicalHeaders(h: Props): string {
    Join(HeaderLines(h), "\n") + "\n"
  }

  /** `getSignedHeaders()`, and the same list inside the canonical request. */
  function SignedHeaders(): string {
    Join(EssentialHeaders, ";")
  }

  /** `createCanonicalRequest`: six fields joined by newlines. */
  function CanonicalRequest(p: Primitives, payload: GetItemsPayload, h: Props): string {
    Join(["POST", CanonicalUri, "", CanonicalHeaders(h), SignedHeaders(), Sha256Hex(p, p.stringify(payload))], "\n")
  }

  // ---------------------------------------------------------------------------
  // The client

  class AmazonClient {
    const credentials: Credentials
    const host: string
    const endpoint: string
    const awsRegion: string

    /** The fields agree with the region table, as the constructor sets them. */
    predicate Valid() {
      && host == Regions.Resolve(credentials.region).host
      && awsRegion == Regions.Resolve(credentials.region).awsRegion
      && endpoint == "https://" + host + CanonicalUri
    }

    /** The region code picks host and signing region from the PA-API table; any other code gets the US store. */
    constructor (credentials: Credentials)
      ensures this.credentials == credentials
      ensures host == Regions.Resolve(credentials.region).host
      ensures awsRegion == Regions.Resolve(credentials.region).awsRegion
      ensures endpoint == "https://" + host + CanonicalUri
      ensures Valid()
    {
      this.credentials := credentials;
      var code := credentials.region;
      var h, r;
      if code == "com" {
        h, r := "webservices.amazon.com", "us-east-1";
        assert Regions.Resolve(code) == Regions.Endpoint(h, r);
      } else if code == "co.uk" {
        h, r := "webservices.amazon.co.uk", "eu-west-1";
        assert Regions.Resolve(code) == Regions.Endpoint(h, r);
      } else if code == "de" {
        h, r := "webservices.amazon.de", "eu-west-1";
        assert Regions.Resolve(code) == Regions.Endpoint(h, r);
      } else if code == "fr" {
        h, r := "webservices.amazon.fr", "eu-west-1";
        assert Regions.Resolve(code) == Regions.Endpoint(h, r);
      } else if code == "it" {
        h, r := "webservices.amazon.it", "eu-west-1";
        assert Regions.Resolve(code) == Regions.Endpoint(h, r);
      } else if code == "es" {
        h, r := "webservices.amazon.es", "eu-west-1";
        assert Regions.Resolve(code) == Regions.Endpoint(h, r);
      } else if code == "ca" {
        h, r := "webservices.amazon.ca", "us-east-1";
        assert Regions.Resolve(code) == Regions.Endpoint(h, r);
      } else if code == "com.au" {
        h, r := "webservices.amazon.com.au", "us-west-2";
        assert Regions.Resolve(code) == Regions.Endpoint(h, r);
      } else if code == "co.jp" {
        h, r := "webservices.amazon.co.jp", "ap-northeast-1";
        assert Regions.Resolve(code) == Regions.Endpoint(h, r);
      } else if code == "in" {
        h, r := "webservices.amazon.in", "ap-south-1";
        assert Regions.Resolve(code) == Regions.Endpoint(h, r);
      } else {
        h, r := "webservices.amazon.com", "us-east-1";
        assert Regions.Resolve(code) == Regions.Endpoint(h, r);
      }
      // Every branch's endpoint is its host's `/paapi5/getitems`.
      host, endpoint, awsRegion := h, "https://" + h + "/paapi5/getitems", r;
    }

    /** `getMarketplace()`: the store of the client's region, the US store when the code is unknown. */
    function Marketplace(): (m: string)
      ensures m == "www.amazon." + (if credentials.region in Regions.Table then credentials.region else "com")
    {
      var code := credentials.region;
      OrDefault(if code in Marketplaces then Some(Marketplaces[code]) else None, "www.amazon.com")
    }

    /** The GetItems payload `fetchProduct` sends for one ASIN. */
    function Payload(asin: string): GetItemsPayload {
      GetItemsPayload([asin], credentials.partnerTag, PartnerType, Marketplace(), Resources)
    }

    /** `createStringToSign`, for the client's signing region. */
    function CreateStringToSign(p: Primitives, timestamp: string, canonicalRequest: string): string {
      SigV4.StringToSign(p, timestamp, awsRegion, canonicalRequest)
    }

    /** `calculateSignature`, with the client's secret key and signing region. */
    function CalculateSignature(p: Primitives, stringToSign: string, date: string): string {
      SigV4.CalculateSignature(p, credentials.secretKey, awsRegion, stringToSign, date)
    }

    /** `createAuthorizationHeader`: all four parts, the algorithm included, joined by ", ". */
    function AuthorizationHeader(signature: string, date: string, signedHeaders: string): string {
      Join([SigV4.Algorithm,
            "Credential=" + credentials.accessKey + "/" + SigV4.CredentialScope(date, awsRegion),
            "SignedHeaders=" + signedHeaders,
            "Signature=" + signature], ", ")
    }

    /**
     * The request `makeRequest` hands to `fetch`: the base headers with the
     * Authorization header added last, and the serialised payload as body.
     */
    function SignedRequest(p: Primitives, operation: string, payload: GetItemsPayload, now: string): (r: Request)
      ensures r.url == endpoint && r.httpMethod == "POST" && r.body == p.stringify(payload)
      ensures Keys(r.headers) == ["Content-Type", "X-Amz-Date", "X-Amz-Target", "content-encoding", "Host", "Authorization"]
      ensures Get(r.headers, "Content-Type") == Some("application/json") && Get(r.headers, "Host") == Some(host)
      ensures Get(r.headers, "X-Amz-Date") == Some(SigV4.Timestamp(now))
      ensures Get(r.headers, "X-Amz-Target") == Some(TargetPrefix + operation)
      ensures Get(r.headers, "content-encoding") == Some("amz-1.0")
    {
      var timestamp := SigV4.Timestamp(now);
      var date := SigV4.DateStamp(timestamp);
      var headers := BaseHeaders(timestamp, operation, host);
      BaseHeaderKeys(timestamp, operation, host);
      var canonicalRequest := CanonicalRequest(p, payload, headers);
      var stringToSign := CreateStringToSign(p, timestamp, canonicalRequest);
      var signature := CalculateSignature(p, stringToSign, date);
      var authorization := AuthorizationHeader(signature, date, SignedHeaders());
      SentGets(timestamp, operation, host, authorization);
      Request(endpoint, "POST", SentHeaders(timestamp, operation, host, authorization), p.stringify(payload))
    }

    /**
     * `makeRequest`: sends the signed request; a rejected fetch passes its
     * error on, a status outside 200-299 becomes `HTTP <status>: <body>`, and
     * otherwise the parsed body (or the parser's error) is the result.
     */
    function MakeRequest(p: Primitives, operation: string, payload: GetItemsPayload, now: string, send: Request -> Exchange): (r: Result<ApiResponse, string>)
      ensures var ex := send(SignedRequest(p, operation, payload, now));
        && (r.Ok? <==> ex.Responded? && StatusOk(ex.status) && ex.json.Ok?)
        && (ex.Responded? && StatusOk(ex.status) ==> r == ex.json)
        && (ex.Responded? && !StatusOk(ex.status) ==> r == Err("HTTP " + Decimal(ex.status) + ": " + ex.text))
        && (ex.Rejected? ==> r == Err(ex.message))
    {
      match send(SignedRequest(p, operation, payload, now))
      case Rejected(message) => Err(message)
      case Responded(status, text, json) =>
        if !StatusOk(status) then Err("HTTP " + Decimal(status) + ": " + text) else json
    }

    /**
     * `transformProduct`: every text field falls back along its chain of
     * sources to a fixed default, so the record never lacks a title, brand,
     * price or currency; `TextFallbacks` and `PriceFallbacks` state the chains.
     */
    function TransformProduct(item: Item, asin: string, syncTime: string): (prod: Product)
      ensures prod.asin == asin && prod.item == item && prod.lastSyncedAt == syncTime
      ensures prod.title != "" && prod.brand != "" && prod.price != "" && prod.currency != ""
      ensures prod.salePrice.Some? <==> Truthy(ListingAmount(item))
      ensures prod.salePrice.Some? ==> prod.price == prod.salePrice.value && prod.listPrice.Some?
      ensures prod.listPrice.Some? ==> prod.listPrice.value != ""
      ensures |prod.images| <= 1 && (|prod.images| == 1 <==> Truthy(LargeUrl(item)))
      ensures |prod.images| == 1 ==>
        prod.images[0] == Image(LargeImageKey, LargeUrl(item).value,
                                NumberOr(LargeImage(item).value.width, DefaultImageSize),
                                NumberOr(LargeImage(item).value.height, DefaultImageSize))
      ensures forall im :: im in prod.images ==> im.url != "" && im.width != 0 && im.height != 0
      ensures prod.url == DetailPageUrl(Marketplace(), asin)
    {
      var title := OrDefault(Title(item), "Unknown Title");
      var brand := OrDefault(Or(Brand(item), Or(Manufacturer(item), PartNumber(item))), "Unknown Brand");
      var price := OrDefault(Or(ListingAmount(item), LowestAmount(item)), "Price not available");
      var salePrice := if Truthy(ListingAmount(item)) then ListingAmount(item) else None;
      var currency := OrDefault(Or(ListingCurrency(item), LowestCurrency(item)), "USD");
      var listPrice := Or(SavingBasisAmount(item), Or(HighestAmount(item), ListingAmount(item)));
      var listPrice := if Truthy(listPrice) then listPrice else None;
      var large := LargeImage(item);
      var images :=
        if Truthy(LargeUrl(item))
        then [Image(LargeImageKey, large.value.url.value,
                    NumberOr(large.value.width, DefaultImageSize), NumberOr(large.value.height, DefaultImageSize))]
        else [];
      var features := var f := FeatureList(item); if f.Some? then f.value else [];
      Product(asin, title, brand, price, salePrice, currency, listPrice, images, features,
              DetailPageUrl(Marketplace(), asin), syncTime, item)
    }

    /**
     * `fetchProduct`: requests the item and transforms the first one
     * returned; every failure, a missing item included, is reported as
     * `Amazon API error: <message>`.
     */
    function FetchProduct(p: Primitives, asin: string, now: string, syncTime: string, send: Request -> Exchange): (r: Result<Product, string>)
      ensures var result := MakeRequest(p, Operation, Payload(asin), now, send);
        && (r.Ok? <==> result.Ok? && FirstItem(result.value).Some?)
        && (r.Ok? ==> r.value == TransformProduct(FirstItem(result.value).value, asin, syncTime))
        && (r.Err? ==> r.error == ErrorPrefix + (if result.Err? then result.error else NoProductData))
    {
      var result := MakeRequest(p, Operation, Payload(asin), now, send);
      if result.Err? then Err(ErrorPrefix + result.error)
      else
        var first := FirstItem(result.value);
        if first.Some? then Ok(TransformProduct(first.value, asin, syncTime))
        else Err(ErrorPrefix + NoProductData)
    }
  }

  // ---------------------------------------------------------------------------
  // Properties

  /** Title, brand, price and currency each take the first truthy source of their chain, or else the written default. */
  lemma TextFallbacks(c: AmazonClient, item: Item, asin: string, syncTime: string)
    ensures var prod := c.TransformProduct(item, asin, syncTime);
      && prod.title == (if Truthy(Title(item)) then Title(item).value else "Unknown Title")
      && prod.brand ==
        (if Truthy(Brand(item)) then Brand(item).value
         else if Truthy(Manufacturer(item)) then Manufacturer(item).value
         else if Truthy(PartNumber(item)) then PartNumber(item).value
         else "Unknown Brand")
      && prod.price ==
        (if Truthy(ListingAmount(item)) then ListingAmount(item).value
         else if Truthy(LowestAmount(item)) then LowestAmount(item).value
         else "Price not available")
      && prod.currency ==
        (if Truthy(ListingCurrency(item)) then ListingCurrency(item).value
         else if Truthy(LowestCurrency(item)) then LowestCurrency(item).value
         else "USD")
  {
  }

  /** The list price is the first truthy of saving basis, highest price and listing amount; features default to none. */
  lemma PriceFallbacks(c: AmazonClient, item: Item, asin: string, syncTime: string)
    ensures var prod := c.TransformProduct(item, asin, syncTime);
      && prod.listPrice ==
        (if Truthy(SavingBasisAmount(item)) then SavingBasisAmount(item)
         else if Truthy(HighestAmount(item)) then HighestAmount(item)
         else if Truthy(ListingAmount(item)) then ListingAmount(item)
         else None)
      && prod.features == (if FeatureList(item).Some? then FeatureList(item).value else [])
  {
  }

  /**
   * An item without any field still becomes a complete record: every text
   * field takes its default, there is no sale or list price, no image and no
   * feature, and the link points at the client's store.
   */
  lemma EmptyItemDefaults(c: AmazonClient, asin: string, syncTime: string)
    ensures c.TransformProduct(EmptyItem, asin, syncTime) ==
      Product(asin, "Unknown Title", "Unknown Brand", "Price not available", None, "USD", None, [], [],
              DetailPageUrl(c.Marketplace(), asin), syncTime, EmptyItem)
  {
  }

  /** The store and the PA-API host of a client name the same Amazon domain. */
  lemma MarketplaceMatchesHost(c: AmazonClient)
    requires c.Valid()
    ensures "webservices." + c.Marketplace()[4..] == c.host
  {
    var code := if c.credentials.region in Regions.Table then c.credentials.region else "com";
    Regions.StoreAndHost(code);
  }

  /** The signed-header list reads back as the four names, and they are in the sorted order Signature Version 4 requires. */
  lemma SignedHeaderList()
    ensures Split(SignedHeaders(), ';') == EssentialHeaders
    ensures Sorted(EssentialHeaders)
  {
    assert Avoid(EssentialHeaders, ';');
    assert ";" == [';'];
    SplitJoin(EssentialHeaders, ';');
    EssentialHeadersSorted();
  }

  lemma EssentialHeadersSorted()
    ensures Sorted(EssentialHeaders)
  {
    assert NotAfter("content-encoding", "host") && NotAfter("host", "x-amz-date");
    assert NotAfter("x-amz-date", "x-amz-target") by {
      assert NotAfter("amz-date", "amz-target") by {
        assert NotAfter("date", "target");
      }
    }
    SortedFour("content-encoding", "host", "x-amz-date", "x-amz-target");
  }

  /**
   * Over the headers `makeRequest` builds, each signed header takes the value
   * of its capitalised counterpart: the canonical block is the four
   * `name:value` lines of the encoding, host, timestamp and target.
   */
  lemma BaseHeaderLines(timestamp: string, operation: string, host: string)
    ensures HeaderLines(BaseHeaders(timestamp, operation, host)) ==
      ["content-encoding:amz-1.0", "host:" + host, "x-amz-date:" + timestamp, "x-amz-target:" + TargetPrefix + operation]
  {
    BaseHeaderValues(timestamp, operation, host);
    LinesOfValues(BaseHeaders(timestamp, operation, host), "amz-1.0", host, timestamp, TargetPrefix + operation);
    EncodingLine();
    assert "x-amz-target:" + (TargetPrefix + operation) == "x-amz-target:" + TargetPrefix + operation;
  }

  lemma EncodingLine()
    ensures "content-encoding:" + "amz-1.0" == "content-encoding:amz-1.0"
  {
  }

  /** The canonical block of any headers whose four signed values are known. */
  lemma LinesOfValues(h: Props, encoding: string, host: string, timestamp: string, target: string)
    requires HeaderValue(h, "content-encoding") == Some(encoding)
    requires HeaderValue(h, "host") == Some(host)
    requires HeaderValue(h, "x-amz-date") == Some(timestamp)
    requires HeaderValue(h, "x-amz-target") == Some(target)
    ensures HeaderLines(h) == ["content-encoding:" + encoding, "host:" + host, "x-amz-date:" + timestamp, "x-amz-target:" + target]
  {
    var lines := HeaderLines(h);
    assert lines[0] == "content-encoding:" + encoding by {
      assert lines[0] == "content-encoding" + ":" + encoding;
    }
    assert lines[1] == "host:" + host by {
      assert lines[1] == "host" + ":" + host;
    }
    assert lines[2] == "x-amz-date:" + timestamp by {
      assert lines[2] == "x-amz-date" + ":" + timestamp;
    }
    assert lines[3] == "x-amz-target:" + target by {
      assert lines[3] == "x-amz-target" + ":" + target;
    }
    FourItems(lines, "content-encoding:" + encoding, "host:" + host, "x-amz-date:" + timestamp, "x-amz-target:" + target);
  }

  lemma BaseHeaderValues(timestamp: string, operation: string, host: string)
    ensures var h := BaseHeaders(timestamp, operation, host);
      && HeaderValue(h, "content-encoding") == Some("amz-1.0")
      && HeaderValue(h, "host") == Some(host)
      && HeaderValue(h, "x-amz-date") == Some(timestamp)
      && HeaderValue(h, "x-amz-target") == Some(TargetPrefix + operation)
  {
    var h := BaseHeaders(timestamp, operation, host);
    BaseHeaderKeys(timestamp, operation, host);
    assert Get(h, "X-Amz-Date") == Some(timestamp) by { GetFirst(h, 1); }
    assert Get(h, "X-Amz-Target") == Some(TargetPrefix + operation) by { GetFirst(h, 2); }
    assert Get(h, "content-encoding") == Some("amz-1.0") by { GetFirst(h, 3); }
    assert Get(h, "Host") == Some(host) by { GetFirst(h, 4); }
  }

  /**
   * The canonical request reads back into its fields: method, path, an empty
   * query, the four header lines, the blank line that ends the block, the
   * signed-header list and the payload hash.
   */
  lemma CanonicalRequestFields(p: Primitives, payload: GetItemsPayload, h: Props)
    requires forall i :: 0 <= i < |h| ==> '\n' !in h[i].1
    ensures Split(CanonicalRequest(p, payload, h), '\n') ==
      ["POST", CanonicalUri, ""] + HeaderLines(h) + ["", SignedHeaders(), Sha256Hex(p, p.stringify(payload))]
  {
    var all := ["POST", CanonicalUri, ""] + HeaderLines(h) + ["", SignedHeaders(), Sha256Hex(p, p.stringify(payload))];
    CanonicalFieldsAvoid(h, Sha256Hex(p, p.stringify(payload)));
    CanonicalRequestFlat(p, payload, h);
    SplitJoin(all, '\n');
  }

  /** The fields the client writes out hold no newline. */
  lemma FixedFieldsAvoid()
    ensures Avoid(["POST", CanonicalUri, ""], '\n') && '\n' !in SignedHeaders()
  {
    JoinAvoids(EssentialHeaders, ";", '\n');
  }

  lemma CanonicalFieldsAvoid(h: Props, hash: string)
    requires forall i :: 0 <= i < |h| ==> '\n' !in h[i].1
    requires IsHex(hash)
    ensures Avoid(["POST", CanonicalUri, ""] + HeaderLines(h) + ["", SignedHeaders(), hash], '\n')
  {
    HeaderLinesAvoid(h);
    FixedFieldsAvoid();
    assert '\n' !in hash;
    AvoidAppend(["POST", CanonicalUri, ""], HeaderLines(h), '\n');
    AvoidAppend(["POST", CanonicalUri, ""] + HeaderLines(h), ["", SignedHeaders(), hash], '\n');
  }

  /** The header block's lines sit between the other fields like fields of their own. */
  lemma CanonicalRequestFlat(p: Primitives, payload: GetItemsPayload, h: Props)
    ensures CanonicalRequest(p, payload, h) ==
      Join(["POST", CanonicalUri, ""] + HeaderLines(h) + ["", SignedHeaders(), Sha256Hex(p, p.stringify(payload))], "\n")
  {
    var hash := Sha256Hex(p, p.stringify(payload));
    var head := ["POST", CanonicalUri, ""];
    var rest := [SignedHeaders(), hash];
    SixAsBlocks("POST", CanonicalUri, "", CanonicalHeaders(h), SignedHeaders(), hash);
    JoinBlock(head, HeaderLines(h), rest, "\n");
    TripleTail(head, HeaderLines(h), "", SignedHeaders(), hash);
  }

  /** No header line holds a newline when no header value does. */
  lemma HeaderLinesAvoid(h: Props)
    requires forall i :: 0 <= i < |h| ==> '\n' !in h[i].1
    ensures Avoid(HeaderLines(h), '\n')
  {
    var lines := HeaderLines(h);
    assert Avoid(EssentialHeaders, '\n');
    forall i | 0 <= i < |lines| ensures '\n' !in lines[i] {
      var key := EssentialHeaders[i];
      HeaderValueAvoids(h, key, '\n');
      LineAvoids(key, HeaderValue(h, key), '\n');
    }
  }

  /** A signed header's value, looked up with its fallback, avoids what every header value avoids. */
  lemma HeaderValueAvoids(h: Props, key: string, c: char)
    requires forall i :: 0 <= i < |h| ==> c !in h[i].1
    ensures HeaderValue(h, key).Some? ==> c !in HeaderValue(h, key).value
  {
    GetAvoids(h, key, c);
    GetAvoids(h, "X-Amz-Date", c);
    GetAvoids(h, "X-Amz-Target", c);
    GetAvoids(h, "Host", c);
    GetAvoids(h, "content-encoding", c);
  }

  /** The headers sent: the base headers with the Authorization header appended. */
  function SentHeaders(timestamp: string, operation: string, host: string, authorization: string): (h: Props)
    ensures h == Put(BaseHeaders(timestamp, operation, host), "Authorization", authorization)
  {
    BaseHeaderKeys(timestamp, operation, host);
    PutNew(BaseHeaders(timestamp, operation, host), "Authorization", authorization);
    BaseHeaders(timestamp, operation, host) + [("Authorization", authorization)]
  }

  /** The service finds the four signed headers of a sent request under their lower-case names. */
  lemma SentHeaderValues(timestamp: string, operation: string, host: string, authorization: string)
    ensures var h := SentHeaders(timestamp, operation, host, authorization);
      && Service.HeaderLookup(h, "content-encoding") == Some("amz-1.0")
      && Service.HeaderLookup(h, "host") == Some(host)
      && Service.HeaderLookup(h, "x-amz-date") == Some(timestamp)
      && Service.HeaderLookup(h, "x-amz-target") == Some(TargetPrefix + operation)
  {
    var h := SentHeaders(timestamp, operation, host, authorization);
    SentShape(timestamp, operation, host, authorization);
    SentDate(h, timestamp);
    SentTarget(h, TargetPrefix + operation);
    SentEncoding(h);
    SentHost(h, host);
  }

  /** The sent headers hold the values the client wrote, under the names it wrote them with. */
  lemma SentGets(timestamp: string, operation: string, host: string, authorization: string)
    ensures var h := SentHeaders(timestamp, operation, host, authorization);
      && Keys(h) == ["Content-Type", "X-Amz-Date", "X-Amz-Target", "content-encoding", "Host", "Authorization"]
      && Get(h, "Content-Type") == Some("application/json")
      && Get(h, "X-Amz-Date") == Some(timestamp)
      && Get(h, "X-Amz-Target") == Some(TargetPrefix + operation)
      && Get(h, "content-encoding") == Some("amz-1.0")
      && Get(h, "Host") == Some(host)
      && Get(h, "Authorization") == Some(authorization)
  {
    BaseGets(timestamp, operation, host);
    SentKeys(timestamp, operation, host, authorization);
    SentKeeps(timestamp, operation, host, authorization, "Content-Type");
    SentKeeps(timestamp, operation, host, authorization, "X-Amz-Date");
    SentKeeps(timestamp, operation, host, authorization, "X-Amz-Target");
    SentKeeps(timestamp, operation, host, authorization, "content-encoding");
    SentKeeps(timestamp, operation, host, authorization, "Host");
  }

  /** The sent headers are named as the base headers, with Authorization last. */
  lemma SentKeys(timestamp: string, operation: string, host: string, authorization: string)
    ensures Keys(SentHeaders(timestamp, operation, host, authorization)) ==
      ["Content-Type", "X-Amz-Date", "X-Amz-Target", "content-encoding", "Host", "Authorization"]
    ensures Get(SentHeaders(timestamp, operation, host, authorization), "Authorization") == Some(authorization)
  {
    BaseHeaderKeys(timestamp, operation, host);
    assert "Authorization" !in Keys(BaseHeaders(timestamp, operation, host));
  }

  /** Adding Authorization leaves every other header as the base headers have it. */
  lemma SentKeeps(timestamp: string, operation: string, host: string, authorization: string, k: string)
    requires k != "Authorization"
    ensures Get(SentHeaders(timestamp, operation, host, authorization), k) == Get(BaseHeaders(timestamp, operation, host), k)
  {
  }

  /** The base headers hold the values the client wrote. */
  lemma BaseGets(timestamp: string, operation: string, host: string)
    ensures var b := BaseHeaders(timestamp, operation, host);
      && Get(b, "Content-Type") == Some("application/json")
      && Get(b, "X-Amz-Date") == Some(timestamp)
      && Get(b, "X-Amz-Target") == Some(TargetPrefix + operation)
      && Get(b, "content-encoding") == Some("amz-1.0")
      && Get(b, "Host") == Some(host)
  {
    var b := BaseHeaders(timestamp, operation, host);
    BaseHeaderKeys(timestamp, operation, host);
    GetFirst(b, 0);
    GetFirst(b, 1);
    GetFirst(b, 2);
    GetFirst(b, 3);
    GetFirst(b, 4);
  }

  /** Each signed header name is already lower case. */
  lemma NamesAreLower()
    ensures LowerIs("content-encoding", "content-encoding") && LowerIs("host", "host")
    ensures LowerIs("x-amz-date", "x-amz-date") && LowerIs("x-amz-target", "x-amz-target")
  {
  }

  /** The sent headers, position by position. */
  lemma SentShape(timestamp: string, operation: string, host: string, authorization: string)
    ensures var h := SentHeaders(timestamp, operation, host, authorization);
      && |h| == 6 && h[0].0 == "Content-Type" && h[1] == ("X-Amz-Date", timestamp)
      && h[2] == ("X-Amz-Target", TargetPrefix + operation) && h[3] == ("content-encoding", "amz-1.0")
      && h[4] == ("Host", host)
  {
    var b := BaseHeaders(timestamp, operation, host);
    assert SentHeaders(timestamp, operation, host, authorization) == b + [("Authorization", authorization)];
  }

  lemma SentDate(h: Props, timestamp: string)
    requires |h| >= 2 && h[0].0 == "Content-Type" && h[1] == ("X-Amz-Date", timestamp)
    ensures Service.HeaderLookup(h, "x-amz-date") == Some(timestamp)
  {
    NamesAreLower();
    Service.LookupFirst(h, 1, "x-amz-date");
  }

  lemma SentTarget(h: Props, target: string)
    requires |h| >= 3 && h[0].0 == "Content-Type" && h[1].0 == "X-Amz-Date" && h[2] == ("X-Amz-Target", target)
    ensures Service.HeaderLookup(h, "x-amz-target") == Some(target)
  {
    NamesAreLower();
    Service.LookupFirst(h, 2, "x-amz-target");
  }

  lemma SentEncoding(h: Props)
    requires |h| >= 4 && h[0].0 == "Content-Type" && h[1].0 == "X-Amz-Date" && h[2].0 == "X-Amz-Target"
    requires h[3] == ("content-encoding", "amz-1.0")
    ensures Service.HeaderLookup(h, "content-encoding") == Some("amz-1.0")
  {
    NamesAreLower();
    Service.LookupFirst(h, 3, "content-encoding");
  }

  lemma SentHost(h: Props, host: string)
    requires |h| >= 5 && h[0].0 == "Content-Type" && h[1].0 == "X-Amz-Date" && h[2].0 == "X-Amz-Target"
    requires h[3].0 == "content-encoding" && h[4] == ("Host", host)
    ensures Service.HeaderLookup(h, "host") == Some(host)
  {
    NamesAreLower();
    Service.LookupFirst(h, 4, "host");
  }

  /**
   * A request the client sends is one the service accepts: its Authorization
   * header carries the signature the service recomputes from the request
   * itself (its timestamp header, the four listed headers found by
   * case-insensitive name, the path it is posted to and its body).
   */
  lemma ServiceAcceptsSignature(c: AmazonClient, p: Primitives, operation: string, payload: GetItemsPayload, now: string)
    requires c.Valid()
    ensures var r := c.SignedRequest(p, operation, payload, now);
      && r.url == "https://" + c.host + CanonicalUri
      && Get(r.headers, "Authorization") == Some(c.AuthorizationHeader(
           Service.ExpectedSignature(p, c.credentials.secretKey, c.awsRegion, r, CanonicalUri, EssentialHeaders),
           SigV4.DateStamp(SigV4.Timestamp(now)), SignedHeaders()))
  {
    var ts := SigV4.Timestamp(now);
    var date := SigV4.DateStamp(ts);
    var canonical := CanonicalRequest(p, payload, BaseHeaders(ts, operation, c.host));
    var signature := c.CalculateSignature(p, c.CreateStringToSign(p, ts, canonical), date);
    var auth := c.AuthorizationHeader(signature, date, SignedHeaders());
    var r := c.SignedRequest(p, operation, payload, now);
    assert r == Request(c.endpoint, "POST", SentHeaders(ts, operation, c.host, auth), p.stringify(payload));
    ServiceRecomputes(c, p, operation, payload, ts, auth, r);
  }

  /** What the service recomputes from a request carrying the client's headers and body. */
  lemma ServiceRecomputes(c: AmazonClient, p: Primitives, operation: string, payload: GetItemsPayload, timestamp: string,
                          authorization: string, r: Request)
    requires r.httpMethod == "POST" && r.body == p.stringify(payload)
    requires r.headers == SentHeaders(timestamp, operation, c.host, authorization)
    ensures Service.ExpectedSignature(p, c.credentials.secretKey, c.awsRegion, r, CanonicalUri, EssentialHeaders) ==
      c.CalculateSignature(p, c.CreateStringToSign(p, timestamp, CanonicalRequest(p, payload, BaseHeaders(timestamp, operation, c.host))),
                           SigV4.DateStamp(timestamp))
  {
    var base := BaseHeaders(timestamp, operation, c.host);
    assert Service.HeaderLookup(r.headers, "x-amz-date") == Some(timestamp) by {
      SentHeaderValues(timestamp, operation, c.host, authorization);
    }
    assert Service.HeaderLines(r.headers, EssentialHeaders) == HeaderLines(base) by {
      SentHeaderValues(timestamp, operation, c.host, authorization);
      BaseHeaderValues(timestamp, operation, c.host);
      ServiceHeaderLines(r.headers, base);
    }
    assert Service.CanonicalRequest(p, r, CanonicalUri, EssentialHeaders) == CanonicalRequest(p, payload, base);
  }

  /** The service's lines agree with the client's wherever the two read the same values. */
  lemma ServiceHeaderLines(sent: Props, signed: Props)
    requires Service.HeaderLookup(sent, "content-encoding") == HeaderValue(signed, "content-encoding")
    requires Service.HeaderLookup(sent, "host") == HeaderValue(signed, "host")
    requires Service.HeaderLookup(sent, "x-amz-date") == HeaderValue(signed, "x-amz-date")
    requires Service.HeaderLookup(sent, "x-amz-target") == HeaderValue(signed, "x-amz-target")
    ensures Service.HeaderLines(sent, EssentialHeaders) == HeaderLines(signed)
  {
    var e := EssentialHeaders;
    forall i | 0 <= i < |e|
      ensures Service.HeaderLookup(sent, e[i]) == HeaderValue(signed, e[i])
    {
      if i == 0 {
        assert e[i] == "content-encoding";
      } else if i == 1 {
        assert e[i] == "host";
      } else if i == 2 {
        assert e[i] == "x-amz-date";
      } else {
        assert e[i] == "x-amz-target";
      }
    }
  }

  /**
   * The Authorization header reads back, split at its commas, into the
   * algorithm on its own, then the credential (access key and the scope of
   * the string to sign), the signed-header list and the signature, each
   * after a space.
   */
  lemma AuthorizationFields(c: AmazonClient, signature: string, date: string, signedHeaders: string)
    requires ',' !in c.credentials.accessKey && ',' !in date && ',' !in c.awsRegion
    requires ',' !in signedHeaders && ',' !in signature
    ensures Split(c.AuthorizationHeader(signature, date, signedHeaders), ',') ==
      [SigV4.Algorithm,
       " Credential=" + c.credentials.accessKey + "/" + SigV4.CredentialScope(date, c.awsRegion),
       " SignedHeaders=" + signedHeaders,
       " Signature=" + signature]
  {
    var scope := SigV4.CredentialScope(date, c.awsRegion);
    var b := "Credential=" + c.credentials.accessKey + "/" + scope;
    AuthorizationLabels();
    assert ',' !in b by {
      SigV4.ScopeAvoids(date, c.awsRegion, ',');
    }
    SplitJoinSpaced4(SigV4.Algorithm, b, "SignedHeaders=" + signedHeaders, "Signature=" + signature, ',');
    assert " " + b == " Credential=" + c.credentials.accessKey + "/" + scope by {
      assert b == "Credential=" + (c.credentials.accessKey + "/" + scope);
      Respace("Credential=", " Credential=", c.credentials.accessKey + "/" + scope);
    }
    Respace("SignedHeaders=", " SignedHeaders=", signedHeaders);
    Respace("Signature=", " Signature=", signature);
  }

  /** The fixed text of the Authorization header: its labels, with and without their leading space, and the separator. */
  lemma AuthorizationLabels()
    ensures ", " == [',', ' ']
    ensures ',' !in SigV4.Algorithm && ',' !in "Credential=" && ',' !in "/"
    ensures ',' !in SigV4.Service && ',' !in SigV4.Terminator
    ensures ',' !in "SignedHeaders=" && ',' !in "Signature="
    ensures " " + "Credential=" == " Credential=" && " " + "SignedHeaders=" == " SignedHeaders="
    ensures " " + "Signature=" == " Signature="
  {
  }
}
