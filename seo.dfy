/**
 * Search-engine metadata: the JSON-LD schema builders (breadcrumb list, FAQ
 * page, product, review) and the document head's title, meta tags and
 * canonical link, which `setSEOTags` rewrites in place.
 */
module Seo {
  import opened Wrappers
  import opened Strings
  import opened Js

  const SiteUrl := "https://kanakartistry.com"
  const BrandName := "KanakArtistry"

  // ---------------------------------------------------------------------------
  // JSON-LD builders

  /** An input of `createBreadcrumbSchema`. */
  datatype Crumb = Crumb(name: string, url: string)

  /** A `ListItem` of a `BreadcrumbList`. */
  datatype ListItem = ListItem(position: nat, name: string, item: string)

  /** The `itemListElement` entries for `items`, numbered from `first`. */
  function ListItemsFrom(items: seq<Crumb>, first: nat): (r: seq<ListItem>)
    decreases |items|
    ensures |r| == |items|
    ensures forall i :: 0 <= i < |items| ==>
      r[i].position == first + i && r[i].name == items[i].name && r[i].item == items[i].url
  {
    if items == [] then []
    else [ListItem(first, items[0].name, items[0].url)] + ListItemsFrom(items[1..], first + 1)
  }

  /**
   * `createBreadcrumbSchema`: one item per input, in order, numbered from 1.
   * Positions are `i + 1`, so no two items share one and a position tells its place.
   */
  function BreadcrumbSchema(items: seq<Crumb>): (r: seq<ListItem>)
    ensures |r| == |items|
    ensures forall i :: 0 <= i < |items| ==>
      r[i].position == i + 1 && r[i].name == items[i].name && r[i].item == items[i].url
  {
    ListItemsFrom(items, 1)
  }

  datatype Faq = Faq(question: string, answer: string)

  /** A `Question` of an `FAQPage`, with its accepted answer's text. */
  datatype Question = Question(name: string, acceptedAnswer: string)

  /** `createFAQSchema`: one question per FAQ, in order, each keeping its answer. */
  function FaqSchema(faqs: seq<Faq>): (r: seq<Question>)
    decreases |faqs|
    ensures |r| == |faqs|
    ensures forall i :: 0 <= i < |faqs| ==> r[i].name == faqs[i].question && r[i].acceptedAnswer == faqs[i].answer
  {
    if faqs == [] then [] else [Question(faqs[0].question, faqs[0].answer)] + FaqSchema(faqs[1..])
  }

  datatype Offer = Offer(url: string, priceCurrency: string, price: string, availability: string)

  datatype ProductSchema = ProductSchema(name: string, description: string, image: string, brand: string, offers: Option<Offer>)

  /** `createProductSchema`: the brand is always KanakArtistry; an `offers` entry is spread in only for a truthy price. */
  function CreateProductSchema(name: string, description: string, image: string, price: Option<string>): (r: ProductSchema)
    ensures r.name == name && r.description == description && r.image == image
    ensures r.brand == BrandName
    ensures r.offers.Some? <==> Present(price)
    ensures r.offers.Some? ==>
      r.offers.value == Offer(SiteUrl, "INR", price.value, "https://schema.org/CustomOrder")
  {
    ProductSchema(name, description, image, BrandName,
      if Present(price) then Some(Offer(SiteUrl, "INR", price.value, "https://schema.org/CustomOrder")) else None)
  }

  datatype ReviewSchema = ReviewSchema(ratingValue: string, bestRating: string, worstRating: string, author: string, reviewBody: string)

  /** `createReviewSchema` for a whole-number rating: the scale is always 1 to 5. */
  function CreateReviewSchema(name: string, rating: int, reviewText: string): (r: ReviewSchema)
    ensures r.bestRating == "5" && r.worstRating == "1"
    ensures r.author == name && r.reviewBody == reviewText
    ensures r.ratingValue == IntToString(rating)
  {
    ReviewSchema(IntToString(rating), "5", "1", name, reviewText)
  }

  /** A non-negative rating is written in plain decimal digits that read back as the rating. */
  lemma ReviewRatingReadsBack(name: string, rating: nat, reviewText: string)
    ensures var v := CreateReviewSchema(name, rating, reviewText).ratingValue;
            (forall i :: 0 <= i < |v| ==> IsDigit(v[i])) && DigitsValue(v) == rating
  {
    NatToStringRoundTrip(rating);
  }

  // ---------------------------------------------------------------------------
  // The document head

  /** The attribute a meta tag is found by: `name` (the default) or `property`. */
  datatype Attribute = NameAttr | PropertyAttr

  /** The meta tag names `setSEOTags` writes (`updateMetaTag` is called with no other). */
  datatype TagName =
    | Description | Keywords
    | OgTitle | OgDescription | OgType | OgUrl | OgImage | OgImageWidth | OgImageHeight
    | TwitterCard | TwitterTitle | TwitterDescription | TwitterImage

  function TagNameText(n: TagName): string {
    match n
    case Description => "description"
    case Keywords => "keywords"
    case OgTitle => "og:title"
    case OgDescription => "og:description"
    case OgType => "og:type"
    case OgUrl => "og:url"
    case OgImage => "og:image"
    case OgImageWidth => "og:image:width"
    case OgImageHeight => "og:image:height"
    case TwitterCard => "twitter:card"
    case TwitterTitle => "twitter:title"
    case TwitterDescription => "twitter:description"
    case TwitterImage => "twitter:image"
  }

  /** A meta tag is found by `meta[attribute="name"]`. */
  datatype MetaKey = MetaKey(attribute: Attribute, name: TagName)

  datatype PageType = Website | Article | Product

  function PageTypeText(t: PageType): string {
    match t
    case Website => "website"
    case Article => "article"
    case Product => "product"
  }

  /** `SEOMetaTags`; the optional members are `None` when not given. */
  datatype SeoMeta = SeoMeta(
    title: string,
    description: string,
    keywords: Option<seq<string>>,
    image: Option<string>,
    url: Option<string>,
    pageType: Option<PageType>)

  function PageUrl(seo: SeoMeta): string {
    PresentOr(seo.url, SiteUrl)
  }

  function OgTypeText(seo: SeoMeta): string {
    if seo.pageType.Some? then PageTypeText(seo.pageType.value) else "website"
  }

  predicate HasKeywords(seo: SeoMeta) {
    seo.keywords.Some? && |seo.keywords.value| > 0
  }

  /** The tags `setSEOTags` writes for `seo`. */
  function WrittenKeys(seo: SeoMeta): set<MetaKey> {
    {MetaKey(NameAttr, Description), MetaKey(PropertyAttr, OgTitle), MetaKey(PropertyAttr, OgDescription),
     MetaKey(PropertyAttr, OgType), MetaKey(PropertyAttr, OgUrl), MetaKey(NameAttr, TwitterCard),
     MetaKey(NameAttr, TwitterTitle), MetaKey(NameAttr, TwitterDescription)}
    + (if HasKeywords(seo) then {MetaKey(NameAttr, Keywords)} else {})
    + (if Present(seo.image) then
         {MetaKey(PropertyAttr, OgImage), MetaKey(PropertyAttr, OgImageWidth),
          MetaKey(PropertyAttr, OgImageHeight), MetaKey(NameAttr, TwitterImage)}
       else {})
  }

  /**
   * The head's meta tags after `setSEOTags`: every tag it writes is set, the
   * keywords only when there is at least one and the image tags only for a
   * truthy image; no other tag is added (and none changes, as
   * `SeoTagsOnKeepsOthers` states).
   */
  function SeoTagsOn(tags: map<MetaKey, string>, seo: SeoMeta): (r: map<MetaKey, string>)
    ensures r.Keys == tags.Keys + WrittenKeys(seo)
  {
    var m := tags[MetaKey(NameAttr, Description) := seo.description];
    var m := if HasKeywords(seo) then m[MetaKey(NameAttr, Keywords) := Join(seo.keywords.value, ", ")] else m;
    var m := m[MetaKey(PropertyAttr, OgTitle) := seo.title]
              [MetaKey(PropertyAttr, OgDescription) := seo.description]
              [MetaKey(PropertyAttr, OgType) := OgTypeText(seo)]
              [MetaKey(PropertyAttr, OgUrl) := PageUrl(seo)];
    var m :=
      if Present(seo.image) then
        m[MetaKey(PropertyAttr, OgImage) := seo.image.value]
         [MetaKey(PropertyAttr, OgImageWidth) := "1200"]
         [MetaKey(PropertyAttr, OgImageHeight) := "630"]
      else m;
    var m := m[MetaKey(NameAttr, TwitterCard) := "summary_large_image"]
              [MetaKey(NameAttr, TwitterTitle) := seo.title]
              [MetaKey(NameAttr, TwitterDescription) := seo.description];
    if Present(seo.image) then m[MetaKey(NameAttr, TwitterImage) := seo.image.value] else m
  }

  /** The description, title, og and twitter description and card tags, and the keywords joined with `, ` when there are any. */
  lemma SeoTagsOnText(tags: map<MetaKey, string>, seo: SeoMeta)
    ensures var r := SeoTagsOn(tags, seo);
      && r[MetaKey(NameAttr, Description)] == seo.description
      && (HasKeywords(seo) ==> r[MetaKey(NameAttr, Keywords)] == Join(seo.keywords.value, ", "))
      && r[MetaKey(PropertyAttr, OgTitle)] == seo.title && r[MetaKey(NameAttr, TwitterTitle)] == seo.title
      && r[MetaKey(PropertyAttr, OgDescription)] == seo.description
      && r[MetaKey(NameAttr, TwitterDescription)] == seo.description
      && r[MetaKey(NameAttr, TwitterCard)] == "summary_large_image"
  {
  }

  /** `og:type` defaults to `website` and `og:url` to the site's address. */
  lemma SeoTagsOnDefaults(tags: map<MetaKey, string>, seo: SeoMeta)
    ensures var r := SeoTagsOn(tags, seo);
      && r[MetaKey(PropertyAttr, OgType)] == (if seo.pageType.None? then "website" else PageTypeText(seo.pageType.value))
      && r[MetaKey(PropertyAttr, OgUrl)] == (if Present(seo.url) then seo.url.value else SiteUrl)
  {
  }

  /** For a truthy image, the image tags carry it with the 1200 by 630 size. */
  lemma SeoTagsOnImage(tags: map<MetaKey, string>, seo: SeoMeta)
    requires Present(seo.image)
    ensures var r := SeoTagsOn(tags, seo);
      && r[MetaKey(PropertyAttr, OgImage)] == seo.image.value && r[MetaKey(NameAttr, TwitterImage)] == seo.image.value
      && r[MetaKey(PropertyAttr, OgImageWidth)] == "1200" && r[MetaKey(PropertyAttr, OgImageHeight)] == "630"
  {
  }

  /** A tag `setSEOTags` does not write keeps its content. */
  lemma SeoTagsOnKeepsOthers(tags: map<MetaKey, string>, seo: SeoMeta, key: MetaKey)
    requires key in tags && key !in WrittenKeys(seo)
    ensures SeoTagsOn(tags, seo)[key] == tags[key]
  {
  }

  /** The document head: its title, its meta tags by key and the canonical link's target. */
  class DocumentHead {
    var title: string
    var meta: map<MetaKey, string>
    var canonical: Option<string>

    constructor ()
      ensures title == "" && meta == map[] && canonical.None?
    {
      title := "";
      meta := map[];
      canonical := None;
    }

    /** `updateMetaTag`: create the tag when it is missing, then set its content; nothing else changes. */
    method UpdateMetaTag(name: TagName, content: string, attribute: Attribute)
      modifies this
      ensures meta == old(meta)[MetaKey(attribute, name) := content]
      ensures title == old(title) && canonical == old(canonical)
    {
      meta := meta[MetaKey(attribute, name) := content];
    }

    /** `updateCanonicalURL`. */
    method UpdateCanonicalUrl(url: string)
      modifies this
      ensures canonical == Some(url)
      ensures title == old(title) && meta == old(meta)
    {
      canonical := Some(url);
    }

    /** `setSEOTags`: the title, the meta tags of `SeoTagsOn`, and the canonical link. */
    method SetSeoTags(seo: SeoMeta)
      modifies this
      ensures title == seo.title
      ensures meta == SeoTagsOn(old(meta), seo)
      ensures canonical == Some(PageUrl(seo))
    {
      title := seo.title;
      UpdateMetaTag(Description, seo.description, NameAttr);
      if HasKeywords(seo) {
        UpdateMetaTag(Keywords, Join(seo.keywords.value, ", "), NameAttr);
      }
      UpdateMetaTag(OgTitle, seo.title, PropertyAttr);
      UpdateMetaTag(OgDescription, seo.description, PropertyAttr);
      UpdateMetaTag(OgType, OgTypeText(seo), PropertyAttr);
      UpdateMetaTag(OgUrl, PageUrl(seo), PropertyAttr);
      if Present(seo.image) {
        UpdateMetaTag(OgImage, seo.image.value, PropertyAttr);
        UpdateMetaTag(OgImageWidth, "1200", PropertyAttr);
        UpdateMetaTag(OgImageHeight, "630", PropertyAttr);
      }
      UpdateMetaTag(TwitterCard, "summary_large_image", NameAttr);
      UpdateMetaTag(TwitterTitle, seo.title, NameAttr);
      UpdateMetaTag(TwitterDescription, seo.description, NameAttr);
      if Present(seo.image) {
        UpdateMetaTag(TwitterImage, seo.image.value, NameAttr);
      }
      UpdateCanonicalUrl(PageUrl(seo));
    }
  }

  /** `updateMetaTag` is an upsert: repeating a write changes nothing. */
  lemma UpdateMetaTagIdempotent(tags: map<MetaKey, string>, key: MetaKey, content: string)
    ensures tags[key := content][key := content] == tags[key := content]
  {
  }
}
