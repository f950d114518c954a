/** The "Trending Videos" slider: the first twelve catalogue videos shown
    twice in a row, with a pause flag, and per slide a like button and
    hover playback. */
module VideoSlider {
  import opened Wrappers
  import opened Text
  import opened Media
  import opened Likes

  /** `videosData.videos.slice(0, 12)`. */
  function TopVideos(videos: seq<Item>): (r: seq<Item>)
    ensures |r| == if |videos| < 12 then |videos| else 12
    ensures forall i :: 0 <= i < |r| ==> r[i] == videos[i]
  {
    videos[..if |videos| < 12 then |videos| else 12]
  }

  class VideoSlider {
    var isPaused: bool

    constructor()
      ensures !isPaused
    {
      isPaused := false;
    }

    method MouseEnter()
      modifies this
      ensures isPaused
    {
      isPaused := true;
    }

    method MouseLeave()
      modifies this
      ensures !isPaused
    {
      isPaused := false;
    }
  }

  /** One slide: its video, its like button, the `isPlaying` flag and the
      state of its `<video>` element (absent before it is mounted). */
  class VideoSlideCard {
    const video: Item
    const like: LikeButton
    const hasElement: bool
    var isPlaying: bool
    var muted: bool
    var paused: bool
    var currentTime: real

    constructor(video: Item, hasElement: bool)
      ensures this.video == video && this.hasElement == hasElement
      ensures fresh(like) && like.Valid() && like.state == LikeState(false, video.likes)
      ensures !isPlaying && muted && paused && currentTime == 0.0
    {
      this.video := video;
      this.hasElement := hasElement;
      like := new LikeButton(video.likes);
      isPlaying := false;
      muted := true;
      paused := true;
      currentTime := 0.0;
    }

    /** `handleSliderLike`: presses the button and always calls
        `onLike(video.id)`. */
    method HandleSliderLike() returns (liked: int)
      requires like.Valid()
      modifies like
      ensures like.Valid()
      ensures like.state == Pressed(old(like.state))
      ensures liked == video.id
    {
      like.Press();
      liked := video.id;
    }

    method HandleSliderSearchSimilar() returns (route: string)
      ensures route == SimilarRoute(Video, video.id)
    {
      route := SimilarRoute(Video, video.id);
    }

    /** `handleMouseEnter`: mutes and starts the element; `playStarted` is
        whether the promise of `play()` resolves. Without an element nothing
        happens. */
    method HandleMouseEnter(playStarted: bool)
      modifies this
      ensures hasElement ==> muted && (playStarted ==> !paused && isPlaying)
      ensures hasElement && !playStarted ==> isPlaying == old(isPlaying)
      ensures !hasElement ==> muted == old(muted) && paused == old(paused) && isPlaying == old(isPlaying)
      ensures currentTime == old(currentTime)
    {
      if hasElement {
        muted := true;
        if playStarted {
          paused := false;
          isPlaying := true;
        }
      }
    }

    /** `handleMouseLeave`: pauses, rewinds to the start and clears
        `isPlaying`; without an element nothing happens. */
    method HandleMouseLeave()
      modifies this
      ensures hasElement ==> paused && currentTime == 0.0 && !isPlaying
      ensures !hasElement ==> paused == old(paused) && currentTime == old(currentTime) && isPlaying == old(isPlaying)
      ensures muted == old(muted)
    {
      if hasElement {
        paused := true;
        currentTime := 0.0;
        isPlaying := false;
      }
    }
  }
}
