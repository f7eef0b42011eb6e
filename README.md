# Amazon Product Sync: the PA-API clients and the serverless handlers

This project models the parts of the Sanity plugin *amazon-product-sync* that
talk to, or stand in for, Amazon's Product Advertising API 5.0 (PA-API). It
proves properties of those models.

- **The frontend-integration client** (`AmazonClient` in
  `examples/frontend-integration/amazon-client.ts`), module `FrontendClient`.
  - It maps a marketplace region code to a PA-API host and an AWS signing
    region.
  - It signs a `GetItems` request with AWS Signature Version 4 over four fixed
    headers: `content-encoding`, `host`, `x-amz-date` and `x-amz-target`.
  - It turns the first returned item into a product record. Title, brand,
    price and currency always have a value, falling back to a default. Sale
    price and list price may be absent.
- **The packaged client** (`AmazonClient` in `dist/lib/amazonClient.js`),
  module `DistClient`.
  - It uses the same region table and a 21-store marketplace table.
  - Its canonical request signs, in sorted order, every header it builds
    before signing. The `Authorization` header is added afterwards and is
    not signed.
  - Its Authorization header lists a fixed set of signed headers.
  - Its product record carries only the fields the response supplies.
- **The `fetch` and `bulk-import` serverless handlers** (`functions/amazon/`),
  modules `FetchFunction` and `BulkImportFunction`.
  - Each checks its request body, then the environment's credentials.
  - Each answers with stub products.

Shared pieces:

- **`Regions`**: the host and signing-region table that both constructors
  write as an if/else chain.
- **`SigV4`**: the timestamp regular expression, the date stamp, the
  credential scope, the string to sign and the HMAC key chain. The two
  clients write these identically.
- **`PaApi`**: the response shape and the `?.` paths into it.
- **`Js`**: the JavaScript behaviour the code relies on.
  - truthiness, `||` and `??`;
  - template stringification;
  - `join` and `split`;
  - the default `sort()` order, with a proof that any correct sort yields
    the same sequence;
  - ASCII `toLowerCase`;
  - objects as ordered key/value lists.
- **`Foreign`**: SHA-256, HMAC-SHA256 and `JSON.stringify` are parameters of
  the model. Hex rendering is written out, together with its inverse.
- **`Http`**: the request handed to `fetch` and the possible outcomes.
- **`FunctionIo`**: what the handlers share.
  - the parsed JSON body;
  - destructuring, where `null` throws;
  - the environment;
  - the stub product and the response.

Neither the clock nor the network is modelled as such. The ISO instant
`new Date().toISOString()` returns is a parameter. So is the outcome of
`fetch` (a function from the signed request to an `Exchange`).

Signature Version 4 is stated against a receiver. Module `Service` rebuilds
the canonical request from a received request the way a SigV4 service does:

- it reads each signed header by case-insensitive name;
- it takes the path the request was posted to;
- it hashes the body it received.

With this receiver, the model proves the following.

- **The frontend client is accepted.** Every request it sends carries, in
  its Authorization header, exactly the signature the receiver recomputes
  over the request's own path, headers and body
  (`FrontendClient.ServiceAcceptsSignature`).
- **The packaged client is never accepted.** Its canonical request signs
  four headers (`content-type`, `host`, `x-amz-date`, `x-amz-target`) on the
  path `/`. Its Authorization header lists only the last three
  (`DistClient.SignedListExceedsListed`). A receiver that rebuilds the
  canonical request over the listed headers gets a request with one header
  line fewer. Whatever path it uses, that canonical request is never the one
  the client hashed (`DistClient.ServiceRejectsRequest`). The requests are
  posted to `/paapi5`, which is not `/` either.
- **The model follows the code as written.**
  - The frontend client also puts `, ` between the algorithm and the
    credential.
  - It reports the listing price as the sale price whether or not there is a
    discount.
  - The packaged client takes the list price from the listing's *saved*
    amount.
  - The packaged client links every product to the US store, whatever its
    marketplace.
  - A region code that the packaged marketplace table lacks (`com.be`, say,
    as opposed to its key `be`) falls back to the US store.

## Model

| member | source | states |
|---|---|---|
| Regions.Resolve | examples/frontend-integration/amazon-client.ts:80-125 | an unknown code gets the US entry; the host is always `webservices.amazon.<code>` for the code's own store; the signing region is one of the five the chain uses |
| FrontendClient.AmazonClient.constructor | examples/frontend-integration/amazon-client.ts:76-126 | host and signing region are the region table's entry for the credentials' code, the endpoint is that host's `/paapi5/getitems`, and the client is `Valid` |
| FrontendClient.AmazonClient.Marketplace | examples/frontend-integration/amazon-client.ts:288-303 | the store is `www.amazon.<code>` for each of the ten codes and `www.amazon.com` for any other |
| FrontendClient.MarketplaceMatchesHost | examples/frontend-integration/amazon-client.ts:288-303 | for every client the store and the PA-API host name the same Amazon domain (`www.` vs `webservices.`) |
| DistClient.AmazonClient.constructor | dist/lib/amazonClient.js:8-67 | host and signing region come from the same region table, the endpoint is the host's `/paapi5`, and the client is `Valid` |
| DistClient.AmazonClient.Marketplace | dist/lib/amazonClient.js:175-200 | a listed code other than `be` gives `www.amazon.<code>`, `be` gives `www.amazon.com.be`, any other code the US store |
| DistClient.MarketplaceMatchesHost | dist/lib/amazonClient.js:175-200 | for the ten region-table codes the store and the PA-API host name the same domain |
| DistClient.OtherStoresUseUsHost | dist/lib/amazonClient.js:8-67 | the eleven marketplace codes the region table lacks are sent to the US host and signed for `us-east-1`, while the payload names a store other than the US one |
| SigV4.Timestamp | examples/frontend-integration/amazon-client.ts:170 | the regex replacement only removes characters: the result is no longer than the input and holds no `:` or `-` |
| SigV4.TimestampAvoids | examples/frontend-integration/amazon-client.ts:170 | a character absent from the ISO instant is absent from the timestamp |
| SigV4.IsoTimestamp | examples/frontend-integration/amazon-client.ts:170-171 | for a `toISOString()` instant the timestamp is the 16-character `YYYYMMDDTHHmmssZ` and the date stamp its `YYYYMMDD` |
| SigV4.ScopeFields | examples/frontend-integration/amazon-client.ts:243-245 | the credential scope splits back at `/` into date, signing region, service and `aws4_request` |
| SigV4.StringToSignFields | examples/frontend-integration/amazon-client.ts:243-254 | the string to sign splits back into algorithm, timestamp, the scope of the timestamp's date and the hash of the canonical request |
| SigV4.CalculateSignature | examples/frontend-integration/amazon-client.ts:256-263 | the signature is 64 lowercase hex digits |
| SigV4.SignatureMatchesScope | dist/lib/amazonClient.js:158-164 | the four-step key derivation is the HMAC chain over exactly the fields of the credential scope, so a receiver holding the scope derives the same signature |
| Foreign.HexRoundTrip | examples/frontend-integration/amazon-client.ts:357-359 | `digest('hex')` loses nothing: the hex text reads back into the digest bytes |
| Foreign.Sha256Hex | examples/frontend-integration/amazon-client.ts:357-359 | the payload hash is 64 lowercase hex digits |
| FrontendClient.BaseHeaderKeys | examples/frontend-integration/amazon-client.ts:174-180 | the headers built carry five distinct names in the order written |
| FrontendClient.BaseHeaderLines | examples/frontend-integration/amazon-client.ts:210-224 | over those headers the lower-case lookup with its capitalised fallback yields the encoding, host, timestamp and target lines |
| FrontendClient.SignedHeaderList | examples/frontend-integration/amazon-client.ts:265-275 | the signed-header list splits back into the four names, which are in the sorted order SigV4 requires |
| FrontendClient.CanonicalRequestFields | examples/frontend-integration/amazon-client.ts:205-241 | the canonical request splits back into method, path, empty query, the four header lines, the blank line, the signed-header list and the payload hash |
| FrontendClient.SentHeaders | examples/frontend-integration/amazon-client.ts:189 | assigning `Authorization` appends a new name to the base headers |
| FrontendClient.AmazonClient.SignedRequest | examples/frontend-integration/amazon-client.ts:169-195 | the request is a POST to the endpoint with the serialised payload, headers named in order with `Authorization` last, `Content-Type` holding `application/json`, `X-Amz-Date` the timestamp of the instant, `X-Amz-Target` the target prefix and operation, `content-encoding` `amz-1.0` and `Host` the region's host |
| FrontendClient.SentHeaderValues | examples/frontend-integration/amazon-client.ts:174-189 | a receiver finds the four signed headers' values under their lower-case names in the sent headers |
| FrontendClient.ServiceAcceptsSignature | examples/frontend-integration/amazon-client.ts:182-195 | the Authorization header sent carries exactly the signature a SigV4 receiver recomputes from the request's own path, headers and body |
| FrontendClient.AuthorizationFields | examples/frontend-integration/amazon-client.ts:277-286 | the Authorization header splits at commas into the algorithm, then credential (access key and scope), signed-header list and signature, each after a space |
| FrontendClient.AmazonClient.MakeRequest | examples/frontend-integration/amazon-client.ts:169-203 | a 2xx response gives the parsed body, or the parser's error; a non-2xx status gives `HTTP <status>: <body>`; a failed fetch passes its error on |
| FrontendClient.AmazonClient.TransformProduct | examples/frontend-integration/amazon-client.ts:305-355 | title, brand, price and currency are never empty; sale price is present iff a listing amount is, and then equals the price, with a list price present; a list price is never empty; at most one image, present iff a large image URL is, with that URL and width and height defaulting to 500; the link is the marketplace's product page; asin, raw item and sync time are kept |
| FrontendClient.TextFallbacks | examples/frontend-integration/amazon-client.ts:307-321 | title, brand (brand, manufacturer, part number), price (listing, lowest) and currency (listing, lowest) take the first truthy source of their chain, or else the written default |
| FrontendClient.PriceFallbacks | examples/frontend-integration/amazon-client.ts:322-338 | list price takes the first truthy of saving basis, highest price and listing amount, or is absent; features default to an empty list |
| FrontendClient.EmptyItemDefaults | examples/frontend-integration/amazon-client.ts:305-355 | an item without any field becomes a complete record of defaults, with no sale or list price, image or feature, and the store's product link |
| FrontendClient.AmazonClient.FetchProduct | examples/frontend-integration/amazon-client.ts:133-167 | success iff the request succeeds and returns a first item, and then the result is that item transformed; every failure is `Amazon API error: <message>`, a missing item with the no-data message |
| DistClient.BaseHeaderKeys | dist/lib/amazonClient.js:92-97 | the headers built carry four distinct names in the order written |
| DistClient.BaseKeysSorted | dist/lib/amazonClient.js:123-124 | `Object.keys(headers).sort()` orders them `Content-Type`, `Host`, `X-Amz-Date`, `X-Amz-Target` |
| DistClient.SignedBaseHeaders | dist/lib/amazonClient.js:127-130 | the canonical request's signed names are all four headers, lower-cased, `content-type` first |
| DistClient.BlockMatchesList | dist/lib/amazonClient.js:123-130 | the header block and the signed-header list come from the same sorted keys: one line per header, line i being the i-th signed name, a colon and that header's value |
| DistClient.CanonicalRequestFields | dist/lib/amazonClient.js:119-140 | the canonical request splits back into method, `/`, empty query, one line per header, the blank line, the signed-header list and the payload hash: six lines more than there are headers |
| DistClient.AuthorizationFields | dist/lib/amazonClient.js:168-171 | the Authorization header splits at commas into algorithm with credential (access key and scope), the fixed signed-header list and the signature |
| DistClient.ListedNames | dist/lib/amazonClient.js:170 | the Authorization header's signed-header list names `host`, `x-amz-date` and `x-amz-target` |
| DistClient.SignedListExceedsListed | dist/lib/amazonClient.js:127-130 | the signed-header list of the canonical request is the Authorization header's list with `content-type` in front |
| DistClient.SentIsPut | dist/lib/amazonClient.js:104-107 | spreading the headers and adding `Authorization` is assigning a new name to them |
| DistClient.AmazonClient.SignedRequest | dist/lib/amazonClient.js:89-109 | the request is a POST to the endpoint with the serialised payload; the headers are named in order with `Authorization` last; `Content-Type` holds `application/json`, `X-Amz-Date` the timestamp of the instant, `X-Amz-Target` the target prefix and operation and `Host` the region's host; `Authorization` carries the signature of the canonical request over the base headers |
| DistClient.ServiceCanonicalDiffers | dist/lib/amazonClient.js:98-108 | a receiver rebuilding the canonical request over the three listed headers, on any path, gets nine lines where the client hashed ten, so never the client's request |
| DistClient.ServiceRejectsRequest | dist/lib/amazonClient.js:89-109 | for every request the client signs, the canonical request a receiver rebuilds from the Authorization header's list differs from the one signed |
| DistClient.AmazonClient.MakeRequest | dist/lib/amazonClient.js:89-115 | a 2xx response gives the parsed body, or the parser's error; a non-2xx status gives `Amazon API error: <status> - <body>`; a failed fetch passes its error on |
| DistClient.AmazonClient.TransformProduct | dist/lib/amazonClient.js:204-240 | the result meets `Transformed`: title and brand are set only when truthy; features as given; price and currency are the listing price's; sale and list price are set only when a saved amount exists, the sale price then equal to the price; the image is the medium image, present iff it is; the link is always the US store's product page |
| DistClient.TransformedUnique | dist/lib/amazonClient.js:204-240 | the specification of `transformProduct` fixes every field, so one item and asin give one product |
| DistClient.EmptyItemKeepsLink | dist/lib/amazonClient.js:204-240 | an item without any field gives a product with only its asin and the US product link |
| DistClient.AmazonClient.TestConnection | dist/lib/amazonClient.js:71-85 | success iff the request succeeds and returns a first item, and the product is then that first item transformed (`Transformed`); request errors pass through unchanged; no item gives the no-data error |
| FunctionIo.Stub | functions/amazon/fetch.ts:27-39 | the stub carries the request's asin and the given title, links the asin's product page, carries the fixed brand `Brand`, prices `$24.99`, `$19.99` and `$29.99` and currency `USD`, and has one 1500x1500 image named after the asin |
| FunctionIo.ErrorResponse | functions/amazon/fetch.ts:42-44 | a thrown error becomes a 500 `Error: <message>` response, `unknown` without a message |
| FetchFunction.Post | functions/amazon/fetch.ts:4-45 | the status is 200, 400 or 500; 400 (`Missing asin`) iff the body's asin is falsy; 200 with the JSON stub iff the asin is truthy and all three credentials are; a truthy asin without credentials gives the not-configured 500; a parse error or a `null` body gives the error response |
| FetchFunction.OnlyAsinMatters | functions/amazon/fetch.ts:16-39 | once credentials are configured, the response depends on the asin alone, not on the credentials' values, the region or other body fields |
| FetchFunction.StubLinksProductPage | functions/amazon/fetch.ts:30 | for a string asin the stub links to the same product page the packaged client builds, and the link reads back the asin |
| BulkImportFunction.ImportedProducts | functions/amazon/bulk-import.ts:38-50 | one stub per asin, in the same order, each titled `Stubbed Product <asin>` |
| BulkImportFunction.Post | functions/amazon/bulk-import.ts:4-69 | the status is 200, 400 or 500; 400 iff the list is missing, not an array, empty or longer than ten (the too-many message exactly when longer than ten); 200 iff the list is valid and credentials are configured, and then `success` with exactly the stubs `ImportedProducts` builds from the asins, in order; a valid list without credentials gives the not-configured 500 |
| BulkImportFunction.MessageCountsProducts | functions/amazon/bulk-import.ts:58-62 | the count in the success message reads back as the number of products returned |

## Left out

- SHA-256, HMAC-SHA256 and `JSON.stringify` are parameters of the model (`Foreign.Primitives`); only the hex rendering of a digest is written out.
- The clock and the network are parameters: the ISO instant, the sync time and the `fetch` outcome (including the parsed body, or the parser's error) are inputs.
- FrontendClient.AmazonClient.FetchProduct: every failure carries a message in the model, so the `Unknown error` text for a thrown non-`Error` value does not arise.
- The frontend client's `testConnection` only calls `fetchProduct`; it is covered by `FrontendClient.AmazonClient.FetchProduct`.
- Both constructors write each branch's endpoint as a literal. The model computes it as `https://` + host + path, which is the same text in every branch.
- A region code that names a property of `Object.prototype` (such as `toString`) is treated as an unknown code by both marketplace lookups.
- `toLowerCase` is modelled for ASCII letters only; header names here are ASCII.
- SigV4.IsoTimestamp: states the timestamp layout only for the four-digit-year form `toISOString()` returns; extended years are outside it.
- The handlers' JSON numbers are integers; fractions and exponent forms of `${asin}` are not modelled.
- The text of the `TypeError` thrown when destructuring a `null` body is engine-specific; the model uses one fixed message.
- Response bodies are datatypes; the key order and the text of their JSON serialisation are not modelled.
- The packaged `transformProduct` may assign `undefined` to a field; the model does not tell that apart from an absent field.
- The handlers read `AMAZON_REGION` (as `FunctionIo.Env.region`), `postType` and `postStatus` but never use them; the model computes nothing from them.
- The vendor response is a record (`PaApi.ApiResponse`), so a body that parses to `null` is not modelled; the source would throw on reading `ItemsResult` from it (both clients' first-item checks).
- The receiver takes the first header of a matching name; how SigV4 services combine repeated headers is not modelled, and neither client sends any.
- DistClient.ServiceRejectsRequest: states the rejection at the level of the canonical request, since hash collisions of the SHA-256 parameter are not excluded.
