/**
 * `StructuredDataGenerator`: schema.org documents. Each document kind is a
 * record whose fields are the properties the builder sets; the constant
 * `'@context': 'https://schema.org'` and the `'@type'` names are implied by
 * the record kind. A property the source may leave `undefined` is an
 * `Option`.
 */
module StructuredData {
  import opened Wrappers
  import opened Strings
  import Seo

  /** An optional number's truthiness: present and non-zero. */
  predicate TruthyNum(n: Option<real>)
  {
    n.Some? && n.value != 0.0
  }

  // ---------------------------------------------------------------------------
  // generateNewsArticle
  // ---------------------------------------------------------------------------

  datatype NewsArticleData = NewsArticleData(
    id: string,
    title: string,
    description: string,
    content: string,
    url: string,
    image: Option<string>,
    publishedTime: string,
    modifiedTime: Option<string>,
    author: Option<string>,
    category: Option<string>,
    tags: Option<seq<string>>,
    source: Option<string>)

  /** `{ '@type': 'Organization', name }`, with the publisher's `ImageObject` logo URL when it has one. */
  datatype Organization = Organization(name: string, logoUrl: Option<string>)

  datatype NewsArticle = NewsArticle(
    headline: string,
    description: string,
    url: string,
    image: string,
    datePublished: string,
    dateModified: string,
    author: Organization,
    publisher: Organization,
    mainEntityOfPage: string,
    articleSection: Option<string>,
    keywords: Option<string>,
    inLanguage: string)

  /**
   * `generateNewsArticle`. The modification date falls back to the
   * publication date, the image to the default image and the author to the
   * site name; keywords are the tags joined with ", " and undefined without
   * tags; the page entity is the article URL and the publisher logo sits
   * under the site URL.
   */
  function GenerateNewsArticle(siteUrl: string, d: NewsArticleData): (r: NewsArticle)
    ensures r.headline == d.title && r.url == d.url && r.mainEntityOfPage == d.url && r.datePublished == d.publishedTime
    ensures r.dateModified == if Truthy(d.modifiedTime) then d.modifiedTime.value else d.publishedTime
    ensures r.image == if Truthy(d.image) then d.image.value else "/images/og-image.jpg"
    ensures r.author == Organization(if Truthy(d.author) then d.author.value else "ProductHot", None)
    ensures r.publisher == Organization("ProductHot", Some(siteUrl + "/images/logo.png"))
    ensures r.keywords.Some? <==> d.tags.Some?
    ensures d.tags.Some? ==> r.keywords.value == Join(d.tags.value, ", ")
    ensures r.articleSection == d.category && r.inLanguage == "zh-CN"
  {
    NewsArticle(
      headline := d.title,
      description := d.description,
      url := d.url,
      image := OrElse(d.image, Seo.DEFAULT_IMAGE),
      datePublished := d.publishedTime,
      dateModified := OrElse(d.modifiedTime, d.publishedTime),
      author := Organization(OrElse(d.author, Seo.SITE_NAME), None),
      publisher := Organization(Seo.SITE_NAME, Some(siteUrl + Seo.LOGO_URL)),
      mainEntityOfPage := d.url,
      articleSection := d.category,
      keywords := if d.tags.Some? then Some(Join(d.tags.value, ", ")) else None,
      inLanguage := "zh-CN")
  }

  // ---------------------------------------------------------------------------
  // generateProduct and generateSoftwareApplication
  // ---------------------------------------------------------------------------

  datatype Availability = InStock | OutOfStock | PreOrder

  function AvailabilityName(a: Availability): string
  {
    match a
    case InStock => "InStock"
    case OutOfStock => "OutOfStock"
    case PreOrder => "PreOrder"
  }

  datatype ProductData = ProductData(
    id: string,
    name: string,
    description: string,
    url: string,
    image: Option<string>,
    category: string,
    brand: Option<string>,
    price: Option<real>,
    currency: Option<string>,
    availability: Option<Availability>,
    rating: Option<real>,
    reviewCount: Option<real>)

  /** `{ '@type': 'Offer', price, priceCurrency, availability? }`; the application's offer has no availability. */
  datatype Offer = Offer(price: real, priceCurrency: string, availability: Option<string>)

  /** `{ '@type': 'AggregateRating', ratingValue, reviewCount }`. */
  datatype AggregateRating = AggregateRating(ratingValue: real, reviewCount: real)

  datatype Product = Product(
    name: string,
    description: string,
    url: string,
    image: Option<string>,
    category: string,
    brand: string,
    offers: Option<Offer>,
    aggregateRating: Option<AggregateRating>)

  /** The rating both builders attach when rating and review count are truthy. */
  function RatingOf(rating: Option<real>, reviewCount: Option<real>): (r: Option<AggregateRating>)
    ensures r.Some? <==> TruthyNum(rating) && TruthyNum(reviewCount)
    ensures r.Some? ==> r.value == AggregateRating(rating.value, reviewCount.value)
  {
    if TruthyNum(rating) && TruthyNum(reviewCount) then Some(AggregateRating(rating.value, reviewCount.value)) else None
  }

  /**
   * `generateProduct`: offers appear exactly when the price is non-zero, with
   * the currency defaulting to USD and the availability URL to InStock; the
   * brand defaults to 'Unknown'; the image stays undefined when not given.
   */
  function GenerateProduct(d: ProductData): (r: Product)
    ensures r.name == d.name && r.url == d.url && r.image == d.image && r.category == d.category
    ensures r.brand == if Truthy(d.brand) then d.brand.value else "Unknown"
    ensures r.offers.Some? <==> TruthyNum(d.price)
    ensures r.offers.Some? ==>
              r.offers.value.price == d.price.value
              && r.offers.value.priceCurrency == (if Truthy(d.currency) then d.currency.value else "USD")
              && r.offers.value.availability == Some("https://schema.org/" + if d.availability.Some? then AvailabilityName(d.availability.value) else "InStock")
    ensures r.aggregateRating == RatingOf(d.rating, d.reviewCount)
  {
    Product(
      name := d.name,
      description := d.description,
      url := d.url,
      image := d.image,
      category := d.category,
      brand := OrElse(d.brand, "Unknown"),
      offers :=
        if TruthyNum(d.price)
        then Some(Offer(d.price.value, OrElse(d.currency, "USD"),
                        Some("https://schema.org/" + AvailabilityName(d.availability.GetOr(InStock)))))
        else None,
      aggregateRating := RatingOf(d.rating, d.reviewCount))
  }

  datatype SoftwareApplicationData = SoftwareApplicationData(
    name: string,
    description: string,
    url: string,
    category: string,
    operatingSystem: Option<string>,
    price: Option<real>,
    currency: Option<string>,
    rating: Option<real>,
    reviewCount: Option<real>)

  datatype SoftwareApplication = SoftwareApplication(
    name: string,
    description: string,
    url: string,
    applicationCategory: string,
    operatingSystem: string,
    offers: Option<Offer>,
    aggregateRating: Option<AggregateRating>)

  /**
   * `generateSoftwareApplication`: unlike a product, offers appear whenever a
   * price is given, zero included; the operating system defaults to
   * 'Web Browser'.
   */
  function GenerateSoftwareApplication(d: SoftwareApplicationData): (r: SoftwareApplication)
    ensures r.name == d.name && r.url == d.url && r.applicationCategory == d.category
    ensures r.operatingSystem == if Truthy(d.operatingSystem) then d.operatingSystem.value else "Web Browser"
    ensures r.offers.Some? <==> d.price.Some?
    ensures r.offers.Some? ==>
              r.offers.value == Offer(d.price.value, if Truthy(d.currency) then d.currency.value else "USD", None)
    ensures r.aggregateRating == RatingOf(d.rating, d.reviewCount)
  {
    SoftwareApplication(
      name := d.name,
      description := d.description,
      url := d.url,
      applicationCategory := d.category,
      operatingSystem := OrElse(d.operatingSystem, "Web Browser"),
      offers := if d.price.Some? then Some(Offer(d.price.value, OrElse(d.currency, "USD"), None)) else None,
      aggregateRating := RatingOf(d.rating, d.reviewCount))
  }

  /** A zero price is where the two builders differ: the application lists an offer, the product does not. */
  lemma ZeroPriceDiffers(p: ProductData, a: SoftwareApplicationData)
    requires p.price == Some(0.0) && a.price == Some(0.0)
    ensures GenerateProduct(p).offers.None?
    ensures GenerateSoftwareApplication(a).offers == Some(Offer(0.0, OrElse(a.currency, "USD"), None))
  {
  }

  // ---------------------------------------------------------------------------
  // generateBreadcrumb and generateCollectionPage
  // ---------------------------------------------------------------------------

  datatype Link = Link(name: string, url: string)

  /**
   * `{ '@type': 'ListItem', position, name, url }`; the breadcrumb spells its
   * URL property `item`, the collection page `url`.
   */
  datatype ListItem = ListItem(position: nat, name: string, url: string)

  /** `items.map((item, index) => ({ position: index + 1, ... }))`. */
  function ListItems(items: seq<Link>): (r: seq<ListItem>)
    ensures |r| == |items|
    ensures forall i :: 0 <= i < |items| ==> r[i].position == i + 1
  {
    seq(|items|, i requires 0 <= i < |items| => ListItem(i + 1, items[i].name, items[i].url))
  }

  /** Reads the links back out of a list of entries. */
  function LinksOf(entries: seq<ListItem>): (r: seq<Link>)
    ensures |r| == |entries|
  {
    seq(|entries|, i requires 0 <= i < |entries| => Link(entries[i].name, entries[i].url))
  }

  /** The entries keep the links' names and URLs in their order: reading them back gives the input. */
  lemma ListItemsRoundTrip(items: seq<Link>)
    ensures LinksOf(ListItems(items)) == items
  {
    var back := LinksOf(ListItems(items));
    assert forall i :: 0 <= i < |items| ==> back[i] == items[i];
  }

  /** Positions strictly increase by one, so they are distinct and the i-th entry is the only one at i + 1. */
  lemma ListPositionsDistinct(items: seq<Link>, i: int, j: int)
    requires 0 <= i < |items| && 0 <= j < |items|
    ensures ListItems(items)[i].position == ListItems(items)[j].position <==> i == j
  {
  }

  /** `{ '@type': 'BreadcrumbList', itemListElement }`. */
  datatype BreadcrumbList = BreadcrumbList(itemListElement: seq<ListItem>)

  /** `generateBreadcrumb`: one entry per input, at position i + 1, with the input's name and URL. */
  function GenerateBreadcrumb(items: seq<Link>): (r: BreadcrumbList)
    ensures |r.itemListElement| == |items|
    ensures forall i :: 0 <= i < |items| ==>
              r.itemListElement[i] == ListItem(i + 1, items[i].name, items[i].url)
  {
    BreadcrumbList(ListItems(items))
  }

  datatype CollectionPageData = CollectionPageData(name: string, description: string, url: string, items: seq<Link>)

  /** `{ '@type': 'CollectionPage', ..., mainEntity: { '@type': 'ItemList', itemListElement } }`. */
  datatype CollectionPage = CollectionPage(name: string, description: string, url: string, itemListElement: seq<ListItem>)

  /** `generateCollectionPage`: the item list numbers its entries 1..n and keeps each item's name and URL. */
  function GenerateCollectionPage(d: CollectionPageData): (r: CollectionPage)
    ensures r.name == d.name && r.description == d.description && r.url == d.url
    ensures LinksOf(r.itemListElement) == d.items
    ensures forall i :: 0 <= i < |r.itemListElement| ==> r.itemListElement[i].position == i + 1
  {
    ListItemsRoundTrip(d.items);
    CollectionPage(d.name, d.description, d.url, ListItems(d.items))
  }

  // ---------------------------------------------------------------------------
  // generateFAQ and generateSearchBox
  // ---------------------------------------------------------------------------

  datatype Faq = Faq(question: string, answer: string)

  /** `{ '@type': 'Question', name, acceptedAnswer: { '@type': 'Answer', text } }`. */
  datatype Question = Question(name: string, acceptedAnswerText: string)

  /** `{ '@type': 'FAQPage', mainEntity }`. */
  datatype FAQPage = FAQPage(mainEntity: seq<Question>)

  /** `generateFAQ`: one question per FAQ, in order, naming the question and carrying its answer. */
  function GenerateFAQ(faqs: seq<Faq>): (r: FAQPage)
    ensures |r.mainEntity| == |faqs|
    ensures forall i :: 0 <= i < |faqs| ==>
              r.mainEntity[i].name == faqs[i].question && r.mainEntity[i].acceptedAnswerText == faqs[i].answer
  {
    FAQPage(seq(|faqs|, i requires 0 <= i < |faqs| => Question(faqs[i].question, faqs[i].answer)))
  }

  /** `{ '@type': 'WebSite', url, potentialAction: { '@type': 'SearchAction', target: { urlTemplate }, 'query-input' } }`. */
  datatype WebSite = WebSite(url: string, urlTemplate: string, queryInput: string)

  const SEARCH_PLACEHOLDER: string := "{search_term_string}"

  /** `generateSearchBox`: the search action targets the site's search page with the schema.org placeholder. */
  function GenerateSearchBox(siteUrl: string): (r: WebSite)
    ensures r.url == siteUrl
    ensures r.urlTemplate == siteUrl + "/search?q=" + SEARCH_PLACEHOLDER
    ensures r.queryInput == "required name=search_term_string"
  {
    WebSite(siteUrl, siteUrl + "/search?q=" + SEARCH_PLACEHOLDER, "required name=search_term_string")
  }

  // ---------------------------------------------------------------------------
  // generateEvent
  // ---------------------------------------------------------------------------

  datatype EventData = EventData(
    name: string,
    description: string,
    startDate: string,
    endDate: Option<string>,
    url: string,
    location: Option<string>,
    organizer: Option<string>)

  /** `{ '@type': 'Place', name }`. */
  datatype Place = Place(name: string)

  datatype Event = Event(
    name: string,
    description: string,
    startDate: string,
    endDate: Option<string>,
    url: string,
    location: Option<Place>,
    organizer: Option<Organization>)

  /** `generateEvent`: location and organiser are wrapped exactly when given non-empty; the end date stays optional. */
  function GenerateEvent(d: EventData): (r: Event)
    ensures r.name == d.name && r.startDate == d.startDate && r.endDate == d.endDate && r.url == d.url
    ensures r.location.Some? <==> Truthy(d.location)
    ensures r.location.Some? ==> r.location.value == Place(d.location.value)
    ensures r.organizer.Some? <==> Truthy(d.organizer)
    ensures r.organizer.Some? ==> r.organizer.value == Organization(d.organizer.value, None)
  {
    Event(
      name := d.name,
      description := d.description,
      startDate := d.startDate,
      endDate := d.endDate,
      url := d.url,
      location := if Truthy(d.location) then Some(Place(d.location.value)) else None,
      organizer := if Truthy(d.organizer) then Some(Organization(d.organizer.value, None)) else None)
  }
}
