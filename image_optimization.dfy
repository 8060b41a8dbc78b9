/**
 * The image helpers: the alt/title lookup in the table of artwork
 * descriptions, and the WebP/JPEG source pair for an image id.
 */
module ImageOptimization {
  import opened Wrappers
  import opened Strings

  datatype ImageDescription = ImageDescription(alt: string, description: string)

  /** `IMAGE_DESCRIPTIONS`: the eleven artworks, keyed by their image key. */
  const Descriptions: map<string, ImageDescription> := map[
    "living_tree_of_grace" := ImageDescription(
      "The Living Tree of Grace - Vibrant tree of life painting on sky-blue and white textured background",
      "A vibrant, detailed Tree of Life on a sky-blue and white textured background. This auspicious tree reflects the flow of life, growth, and harmony, bringing prosperity, positivity, and the fulfillment of wishes."),
    "garden_of_living_light" := ImageDescription(
      "Garden of Living Light - Vibrant garden flowers with golden shimmer on peach and sky-blue background",
      "A vibrant garden of flowers against a peach and sky-blue background, with golden dots shimmering like energy—reflecting growth, vitality, and the blossoming of life's potential."),
    "light_of_the_lord" := ImageDescription(
      "Light of the Lord - Shrinathji textured canvas painting with divine sun radiation",
      "A textured canvas painting with Shrinathji's face at the center, radiating amidst the glory of the sun. This artwork captures divine light, devotion, and spiritual brilliance."),
    "tree_of_abundance" := ImageDescription(
      "Tree of Abundance - Radiant golden tree of life with blooming flowers and graceful birds",
      "A radiant Tree of Life glowing with a golden aura, adorned with vibrant, blooming flowers and graceful golden birds. This artwork reflects divine balance, growth, and the eternal movement of energy through nature."),
    "sacred_rise_of_lotus" := ImageDescription(
      "The Sacred Rise of the Lotus - Spiritual lotus flower canvas painting with divine energy",
      "A spiritually charged lotus flower artwork symbolizing spiritual awakening, purity, and enlightenment. The layered petals and radiant colors represent the journey of the soul towards divine consciousness."),
    "above_the_garden_dream" := ImageDescription(
      "Above the Garden Dream - Ethereal landscape with floating flowers and celestial elements",
      "An ethereal dreamscape featuring graceful flying birds and floating flowers against a mystical backdrop. This artwork captures the magic of imagination and the beauty of transcendence beyond the material world."),
    "divya_gyaan" := ImageDescription(
      "Divya Gyaan - Divine knowledge spiritual artwork with cosmic elements",
      "Divya Gyaan (Divine Knowledge) - A profound spiritual artwork radiating cosmic energy and wisdom. The composition blends sacred symbols with celestial colors, representing the eternal flow of divine knowledge and spiritual enlightenment."),
    "circle_of_harmony" := ImageDescription(
      "Circle of Harmony - Mandala-inspired art with symmetrical geometric and organic patterns",
      "A harmonious mandala-inspired artwork featuring perfectly balanced geometric and organic patterns. This piece embodies the cosmic order, unity, and the sacred geometry present in all creation."),
    "night_bloom" := ImageDescription(
      "Night Bloom - Nocturnal flowers and luminous plants against a dark mystical background",
      "A beautiful nocturnal floral composition where flowers bloom in the darkness with an ethereal luminescence. Representing resilience, inner light, and the beauty that flourishes even in challenging circumstances."),
    "tree_of_timeless_balance" := ImageDescription(
      "Tree of Timeless Balance - Symmetrical tree artwork representing eternal equilibrium and stability",
      "A perfectly balanced tree artwork symbolizing timeless equilibrium. The symmetrical composition represents the eternal balance between opposing forces—light and dark, growth and stability, matter and spirit."),
    "journey_of_eternal_love" := ImageDescription(
      "A Journey of Eternal Love & Divine Blessings - Spiritual journey artwork with flowing energy",
      "This artwork represents a spiritual journey through life, characterized by eternal love and divine blessings. The flowing, dynamic composition captures the essence of transformation, spiritual growth, and the continuous movement of blessed energy.")
  ]

  const FallbackAlt := "KanakArtistry handmade artwork"
  const FallbackTitle := "Handmade spiritual artwork by KanakArtistry"
  const ImageClassName := "w-full h-full object-cover"

  datatype Loading = Lazy | Eager

  datatype OptimizedImageProps = OptimizedImageProps(src: string, alt: string, title: string, loading: Loading, className: string)

  /**
   * `getOptimizedImageProps`. An omitted `loading` is `Lazy`. A key that is not
   * one of the table's own keys gives no entry, and then (as for an empty
   * text, through `||`) the fixed fallbacks are used.
   */
  function GetOptimizedImageProps(src: string, imageKey: string, loading: Option<Loading>): (p: OptimizedImageProps)
    ensures p.src == src && p.className == ImageClassName
    ensures p.loading == loading.GetOr(Lazy)
    ensures imageKey !in Descriptions ==> p.alt == FallbackAlt && p.title == FallbackTitle
    ensures imageKey in Descriptions && Descriptions[imageKey].alt != "" ==> p.alt == Descriptions[imageKey].alt
    ensures imageKey in Descriptions && Descriptions[imageKey].description != "" ==> p.title == Descriptions[imageKey].description
    ensures p.alt != "" && p.title != ""
  {
    var alt := if imageKey in Descriptions && Descriptions[imageKey].alt != "" then Descriptions[imageKey].alt else FallbackAlt;
    var title := if imageKey in Descriptions && Descriptions[imageKey].description != "" then Descriptions[imageKey].description else FallbackTitle;
    OptimizedImageProps(src, alt, title, loading.GetOr(Lazy), ImageClassName)
  }

  /** Every entry of the table has a non-empty alt text and description. */
  lemma DescriptionsNonEmpty()
    ensures forall k :: k in Descriptions ==> Descriptions[k].alt != "" && Descriptions[k].description != ""
  {
  }

  /** For a key of the table, the alt text and title are the table's own. */
  lemma KnownKeyUsesTable(src: string, imageKey: string, loading: Option<Loading>)
    requires imageKey in Descriptions
    ensures GetOptimizedImageProps(src, imageKey, loading).alt == Descriptions[imageKey].alt
    ensures GetOptimizedImageProps(src, imageKey, loading).title == Descriptions[imageKey].description
  {
    DescriptionsNonEmpty();
  }

  datatype SrcSet = SrcSet(webp: string, jpeg: string)

  const DefaultBasePath := "/images"

  /** `generateImageSrcSet`: the path of the image without its extension, under `basePath` (`/images` when omitted). */
  function ImageStem(imageId: string, basePath: Option<string>): (stem: string)
    ensures IsPrefix(basePath.GetOr(DefaultBasePath) + "/", stem)
    ensures stem[|basePath.GetOr(DefaultBasePath)| + 1..] == imageId
  {
    var base := basePath.GetOr(DefaultBasePath);
    assert base + "/" + imageId == (base + "/") + imageId;
    base + "/" + imageId
  }

  /** The WebP source and its JPEG fallback name the same image, differing only in their extensions. */
  function GenerateImageSrcSet(imageId: string, basePath: Option<string>): (r: SrcSet)
    ensures IsPrefix(ImageStem(imageId, basePath), r.webp) && r.webp[|ImageStem(imageId, basePath)|..] == ".webp"
    ensures IsPrefix(ImageStem(imageId, basePath), r.jpeg) && r.jpeg[|ImageStem(imageId, basePath)|..] == ".jpg"
  {
    var stem := ImageStem(imageId, basePath);
    SrcSet(stem + ".webp", stem + ".jpg")
  }

  /** Two different image ids under the same base path never share a WebP or a JPEG path. */
  lemma SrcSetDistinguishesImages(a: string, b: string, basePath: Option<string>)
    requires a != b
    ensures GenerateImageSrcSet(a, basePath).webp != GenerateImageSrcSet(b, basePath).webp
    ensures GenerateImageSrcSet(a, basePath).jpeg != GenerateImageSrcSet(b, basePath).jpeg
  {
  }
}
