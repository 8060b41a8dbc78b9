/**
 * The click-to-reveal gallery: which artworks are revealed, what each card
 * shows, and the "commission similar" request a card passes up to the page.
 */
module Gallery {
  import opened Wrappers
  import App

  /** The fields of an artwork that the toggle and the request use. */
  datatype Artwork = Artwork(id: int, title: string, medium: string)

  /** The gallery's artworks, in display order. */
  const Artworks: seq<Artwork> := [
    Artwork(1, "The Living Tree of Grace", "Canvas Painting"),
    Artwork(2, "Garden of Living Light", "Canvas Painting"),
    Artwork(3, "Light of the Lord", "Canvas Painting"),
    Artwork(4, "Tree of Abundance", "Canvas Painting"),
    Artwork(5, "The Sacred Rise of the Lotus", "Canvas Painting"),
    Artwork(6, "Above the Garden Dream", "Canvas Painting"),
    Artwork(7, "Divya Gyaan", "Painting on MDF"),
    Artwork(8, "Circle of Harmony", "Gond-style Mandala"),
    Artwork(9, "Night Bloom", "Canvas Painting"),
    Artwork(10, "Tree of Timeless Balance", "Pattachitra-style"),
    Artwork(11, "A Journey of Eternal Love & Divine Blessings", "Triptych Canvas Paintings")
  ]

  /** No two artworks share an id, so each card's state is its own. */
  lemma ArtworkIdsDistinct(i: nat, j: nat)
    requires i < |Artworks| && j < |Artworks|
    ensures Artworks[i].id == Artworks[j].id <==> i == j
  {
    assert forall k :: 0 <= k < |Artworks| ==> Artworks[k].id == k + 1;
  }

  /** `visibleImages[id]` read as a condition: a missing entry is `undefined`, hence hidden. */
  predicate IsVisible(visible: map<int, bool>, id: int) {
    id in visible && visible[id]
  }

  /** `{ ...prev, [id]: !prev[id] }`: the entry for `id` becomes the opposite of its visibility; every other entry is kept. */
  function Toggled(visible: map<int, bool>, id: int): (r: map<int, bool>)
    ensures id in r && r[id] == !IsVisible(visible, id)
    ensures IsVisible(r, id) <==> !IsVisible(visible, id)
    ensures forall k :: k != id ==> (k in r <==> k in visible)
    ensures forall k :: k != id && k in visible ==> r[k] == visible[k]
  {
    visible[id := !IsVisible(visible, id)]
  }

  /**
   * Toggling twice restores the visibility, as a boolean: an artwork never
   * toggled before ends with an explicit `false` entry, so the map itself
   * is not restored.
   */
  lemma ToggleTwiceRestoresVisibility(visible: map<int, bool>, id: int)
    ensures var r := Toggled(Toggled(visible, id), id);
      (forall k :: IsVisible(r, k) <==> IsVisible(visible, k))
      && (id in visible ==> r == visible)
      && (id !in visible ==> r == visible[id := false] && r != visible)
  {
    var r := Toggled(Toggled(visible, id), id);
    if id in visible {
      assert r == visible;
    }
  }

  /** Toggling one artwork leaves the visibility of every other artwork as it was. */
  lemma ToggleLeavesOthers(visible: map<int, bool>, id: int, other: int)
    requires other != id
    ensures IsVisible(Toggled(visible, id), other) <==> IsVisible(visible, other)
  {
  }

  /** How a card looks: the overlay hidden, the cached image displayed, and the overlay's texts. */
  datatype CardView = CardView(overlayHidden: bool, imageDisplayed: bool, ariaLabel: string, overlayText: string)

  /** The overlay is hidden and the image shown exactly when the artwork is revealed; the texts say which action a click takes. */
  function CardViewOf(visible: map<int, bool>, art: Artwork): (v: CardView)
    ensures v.overlayHidden <==> IsVisible(visible, art.id)
    ensures v.imageDisplayed <==> IsVisible(visible, art.id)
    ensures v.ariaLabel == (if IsVisible(visible, art.id) then "Hide" else "Show") + " " + art.title
    ensures v.overlayText == if IsVisible(visible, art.id) then "Hide Image" else "Click to View"
  {
    var shown := IsVisible(visible, art.id);
    CardView(shown, shown, (if shown then "Hide" else "Show") + " " + art.title, if shown then "Hide Image" else "Click to View")
  }

  /** A click on either of a card's toggle buttons (the overlay or the reveal button) changes that card's view and no other card's. */
  lemma ToggleChangesOnlyThatCard(visible: map<int, bool>, clicked: Artwork, other: Artwork)
    requires other.id != clicked.id
    ensures CardViewOf(Toggled(visible, clicked.id), other) == CardViewOf(visible, other)
    ensures CardViewOf(Toggled(visible, clicked.id), clicked).imageDisplayed != CardViewOf(visible, clicked).imageDisplayed
  {
  }

  /**
   * "Commission Similar": `onInquireWithArtwork?.(art.title, art.medium)`,
   * nothing when the page passed no handler.
   */
  function CommissionRequest(art: Artwork, hasHandler: bool): (r: Option<(string, string)>)
    ensures r.Some? <==> hasHandler
    ensures r.Some? ==> r.value.0 == art.title && r.value.1 == art.medium
  {
    if hasHandler then Some((art.title, art.medium)) else None
  }

  /** Through the page's handler, a card's request opens the inquiry dialog with that artwork's own medium and title. */
  lemma CommissionNamesThatArtwork(v: App.AppView, art: Artwork)
    ensures var req := CommissionRequest(art, true).value;
      var w := App.InquiredWithArtwork(v, req.0, req.1);
      w.isInquiryModalOpen && w.artworkType == App.SimilarArtwork(art.title, art.medium)
  {
  }

  /** The gallery's `visibleImages` state. */
  class GalleryState {
    var visibleImages: map<int, bool>

    /** Starts with no entry, so every artwork starts hidden. */
    constructor ()
      ensures visibleImages == map[]
      ensures forall id :: !IsVisible(visibleImages, id)
    {
      visibleImages := map[];
    }

    /** `toggleImageVisibility`. */
    method ToggleImageVisibility(artworkId: int)
      modifies this
      ensures visibleImages == Toggled(old(visibleImages), artworkId)
    {
      var shown := artworkId in visibleImages && visibleImages[artworkId];
      visibleImages := visibleImages[artworkId := !shown];
    }
  }
}
