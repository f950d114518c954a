/** The "Trending Images" slider: a fixed table of twelve images shown twice
    in a row for a seamless loop, with a pause flag and a like button per
    slide. */
module ImageSlider {
  import opened Wrappers
  import opened Text
  import opened Media
  import opened Likes

  /** `topImages`. */
  const TopImages: seq<Item> := [
    Item(1, "Fantasy castle in the clouds", "DreamArtist", 342),
    Item(2, "AI-generated cyberpunk city", "CyberCreator", 567),
    Item(3, "Space exploration mission", "CosmosVision", 234),
    Item(4, "Underwater coral kingdom", "OceanDreamer", 445),
    Item(5, "Mystical forest pathway", "NatureAI", 389),
    Item(6, "Futuristic robot companion", "TechVisionary", 612),
    Item(7, "Ancient dragon awakening", "MythMaker", 789),
    Item(8, "Neon-lit urban landscape", "UrbanGlow", 456),
    Item(9, "Magical spell casting", "MagicWeaver", 523),
    Item(10, "Alien world discovery", "GalacticExplorer", 678),
    Item(11, "Steampunk airship adventure", "RetroFuturist", 345),
    Item(12, "Crystal cave exploration", "GemSeeker", 567)
  ]

  /** The table has twelve entries whose ids are 1 to 12 in order, so the
      ids are distinct. */
  lemma TopImagesIds()
    ensures |TopImages| == 12
    ensures forall i :: 0 <= i < |TopImages| ==> TopImages[i].id == i + 1
    ensures forall i, j :: 0 <= i < j < |TopImages| ==> TopImages[i].id != TopImages[j].id
  {
  }

  /** The slider track: the first slide set, then the second. */
  function Track(slides: seq<Item>): (r: seq<Item>)
    ensures |r| == 2 * |slides|
    ensures forall i :: 0 <= i < |slides| ==> r[i] == slides[i] && r[i + |slides|] == slides[i]
  {
    slides + slides
  }

  class ImageSlider {
    var isPaused: bool

    constructor()
      ensures !isPaused
    {
      isPaused := false;
    }

    method MouseEnter()
      modifies this
      ensures isPaused
    {
      isPaused := true;
    }

    method MouseLeave()
      modifies this
      ensures !isPaused
    {
      isPaused := false;
    }
  }

  /** One slide: its image and its like button. */
  class SlideCard {
    const image: Item
    const like: LikeButton

    constructor(image: Item)
      ensures this.image == image
      ensures fresh(like) && like.Valid() && like.state == LikeState(false, image.likes)
    {
      this.image := image;
      like := new LikeButton(image.likes);
    }

    /** `handleSliderLike`: presses the button and always calls
        `onLike(image.id)`. */
    method HandleSliderLike() returns (liked: int)
      requires like.Valid()
      modifies like
      ensures like.Valid()
      ensures like.state == Pressed(old(like.state))
      ensures liked == image.id
    {
      like.Press();
      liked := image.id;
    }

    /** `handleSliderSearchSimilar`, through the slider's
        `handleSearchSimilar`. */
    method HandleSliderSearchSimilar() returns (route: string)
      ensures route == SimilarRoute(Image, image.id)
    {
      route := SimilarRoute(Image, image.id);
    }
  }
}
