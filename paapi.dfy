/**
 * The Product Advertising API 5.0 shapes that the clients exchange with the
 * vendor: the GetItems request payload and the response item. Every field of
 * the response may be missing, so every field is an `Option`; the path
 * functions below are the source's optional chains (`a?.b?.c`, `xs?.[0]`).
 */
module PaApi {
  import opened Wrappers

  // ---------------------------------------------------------------------------
  // Request

  /** The body of a GetItems request, before `JSON.stringify`. */
  datatype GetItemsPayload = GetItemsPayload(
    itemIds: seq<string>,
    partnerTag: string,
    partnerType: string,
    marketplace: string,
    resources: seq<string>)

  const Operation := "GetItems"
  const PartnerType := "Associates"

  // ---------------------------------------------------------------------------
  // Response

  datatype Amount = Amount(displayAmount: Option<string>, currency: Option<string>)
  datatype Price = Price(displayAmount: Option<string>, currency: Option<string>, savedAmount: Option<Amount>)
  datatype Listing = Listing(price: Option<Price>, savingBasis: Option<Amount>)
  datatype Summary = Summary(lowestPrice: Option<Amount>, highestPrice: Option<Amount>)
  datatype Offers = Offers(listings: Option<seq<Listing>>, summaries: Option<seq<Summary>>)
  datatype ImageSize = ImageSize(url: Option<string>, width: Option<int>, height: Option<int>)
  datatype PrimaryImage = PrimaryImage(large: Option<ImageSize>, medium: Option<ImageSize>)
  datatype Images = Images(primary: Option<PrimaryImage>)
  datatype Labelled = Labelled(displayValue: Option<string>)
  datatype ByLineInfo = ByLineInfo(brand: Option<Labelled>, manufacturer: Option<Labelled>)
  datatype Features = Features(displayValues: Option<seq<string>>)
  datatype ManufactureInfo = ManufactureInfo(itemPartNumber: Option<Labelled>)
  datatype ItemInfo = ItemInfo(
    title: Option<Labelled>,
    byLineInfo: Option<ByLineInfo>,
    features: Option<Features>,
    manufactureInfo: Option<ManufactureInfo>)
  datatype Item = Item(itemInfo: Option<ItemInfo>, offers: Option<Offers>, images: Option<Images>)
  datatype ItemsResult = ItemsResult(items: Option<seq<Item>>)
  datatype ApiResponse = ApiResponse(itemsResult: Option<ItemsResult>)

  /** An item with no field at all (`{}`). */
  const EmptyItem := Item(None, None, None)

  // ---------------------------------------------------------------------------
  // Optional chains

  function Label(l: Option<Labelled>): Option<string> {
    if l.Some? then l.value.displayValue else None
  }

  /** `item.ItemInfo?.Title?.DisplayValue` */
  function Title(item: Item): Option<string> {
    if item.itemInfo.Some? then Label(item.itemInfo.value.title) else None
  }

  function ByLine(item: Item): Option<ByLineInfo> {
    if item.itemInfo.Some? then item.itemInfo.value.byLineInfo else None
  }

  /** `item.ItemInfo?.ByLineInfo?.Brand?.DisplayValue` */
  function Brand(item: Item): Option<string> {
    var b := ByLine(item);
    if b.Some? then Label(b.value.brand) else None
  }

  /** `item.ItemInfo?.ByLineInfo?.Manufacturer?.DisplayValue` */
  function Manufacturer(item: Item): Option<string> {
    var b := ByLine(item);
    if b.Some? then Label(b.value.manufacturer) else None
  }

  /** `item.ItemInfo?.ManufactureInfo?.ItemPartNumber?.DisplayValue` */
  function PartNumber(item: Item): Option<string> {
    if item.itemInfo.Some? && item.itemInfo.value.manufactureInfo.Some?
    then Label(item.itemInfo.value.manufactureInfo.value.itemPartNumber)
    else None
  }

  /** `item.ItemInfo?.Features?.DisplayValues` */
  function FeatureList(item: Item): Option<seq<string>> {
    if item.itemInfo.Some? && item.itemInfo.value.features.Some?
    then item.itemInfo.value.features.value.displayValues
    else None
  }

  /** `item.Offers?.Listings?.[0]` */
  function FirstListing(item: Item): Option<Listing> {
    if item.offers.Some? && item.offers.value.listings.Some? && |item.offers.value.listings.value| > 0
    then Some(item.offers.value.listings.value[0])
    else None
  }

  /** `item.Offers?.Summaries?.[0]` */
  function FirstSummary(item: Item): Option<Summary> {
    if item.offers.Some? && item.offers.value.summaries.Some? && |item.offers.value.summaries.value| > 0
    then Some(item.offers.value.summaries.value[0])
    else None
  }

  /** `item.Offers?.Listings?.[0]?.Price` */
  function ListingPrice(item: Item): Option<Price> {
    var l := FirstListing(item);
    if l.Some? then l.value.price else None
  }

  /** `listing?.Price?.DisplayAmount` */
  function ListingAmount(item: Item): Option<string> {
    var p := ListingPrice(item);
    if p.Some? then p.value.displayAmount else None
  }

  /** `listing?.Price?.Currency` */
  function ListingCurrency(item: Item): Option<string> {
    var p := ListingPrice(item);
    if p.Some? then p.value.currency else None
  }

  /** `item.Offers?.Listings?.[0]?.Price?.SavedAmount` */
  function SavedAmount(item: Item): Option<Amount> {
    var p := ListingPrice(item);
    if p.Some? then p.value.savedAmount else None
  }

  /** `listing?.SavingBasis?.DisplayAmount` */
  function SavingBasisAmount(item: Item): Option<string> {
    var l := FirstListing(item);
    if l.Some? && l.value.savingBasis.Some? then l.value.savingBasis.value.displayAmount else None
  }

  function AmountText(a: Option<Amount>): Option<string> {
    if a.Some? then a.value.displayAmount else None
  }

  function AmountCurrency(a: Option<Amount>): Option<string> {
    if a.Some? then a.value.currency else None
  }

  /** `summaries?.LowestPrice?.DisplayAmount` */
  function LowestAmount(item: Item): Option<string> {
    var s := FirstSummary(item);
    if s.Some? then AmountText(s.value.lowestPrice) else None
  }

  /** `summaries?.LowestPrice?.Currency` */
  function LowestCurrency(item: Item): Option<string> {
    var s := FirstSummary(item);
    if s.Some? then AmountCurrency(s.value.lowestPrice) else None
  }

  /** `summaries?.HighestPrice?.DisplayAmount` */
  function HighestAmount(item: Item): Option<string> {
    var s := FirstSummary(item);
    if s.Some? then AmountText(s.value.highestPrice) else None
  }

  function Primary(item: Item): Option<PrimaryImage> {
    if item.images.Some? then item.images.value.primary else None
  }

  /** `item.Images?.Primary?.Large` */
  function LargeImage(item: Item): Option<ImageSize> {
    var p := Primary(item);
    if p.Some? then p.value.large else None
  }

  /** `item.Images?.Primary?.Medium` */
  function MediumImage(item: Item): Option<ImageSize> {
    var p := Primary(item);
    if p.Some? then p.value.medium else None
  }

  /** `item.Images?.Primary?.Large?.URL` */
  function LargeUrl(item: Item): Option<string> {
    var l := LargeImage(item);
    if l.Some? then l.value.url else None
  }

  /** `result.ItemsResult?.Items?.[0]` */
  function FirstItem(r: ApiResponse): Option<Item> {
    if r.itemsResult.Some? && r.itemsResult.value.items.Some? && |r.itemsResult.value.items.value| > 0
    then Some(r.itemsResult.value.items.value[0])
    else None
  }

  // ---------------------------------------------------------------------------
  // Product links

  const DpPrefix := "https://"
  const DpInfix := "/dp/"

  /** The product link `https://<marketplace>/dp/<asin>`. */
  function DetailPageUrl(marketplace: string, asin: string): string {
    DpPrefix + marketplace + DpInfix + asin
  }

  /** A link written out for the US store is that store's product page, and reads back the asin. */
  lemma UsStoreLink(asin: string)
    ensures "https://www.amazon.com/dp/" + asin == DetailPageUrl("www.amazon.com", asin)
    ensures ("https://www.amazon.com/dp/" + asin)[|"https://www.amazon.com/dp/"|..] == asin
  {
    var prefix := "https://www.amazon.com/dp/";
    assert prefix == DpPrefix + "www.amazon.com" + DpInfix;
    assert (prefix + asin)[|prefix|..] == asin;
  }
}
