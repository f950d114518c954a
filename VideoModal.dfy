/** The video modal: a like counter, the comment list with its input, and
    the play and mute controls of the `<video>` element. */
module VideoModal {
  import opened Text
  import opened Media

  class VideoModal {
    const video: Item
    const hasElement: bool
    var likes: int
    var comments: seq<string>
    var newComment: string
    var isPlaying: bool
    var isMuted: bool

    /** `likes` starts at `video.likes || 0` (a missing count is 0 in the
        catalogue model) and the comments at `video.comments || []`. */
    constructor(video: Item, comments: seq<string>, hasElement: bool)
      ensures this.video == video && this.hasElement == hasElement
      ensures likes == video.likes && this.comments == comments && newComment == []
      ensures !isPlaying && isMuted
    {
      this.video := video;
      this.hasElement := hasElement;
      likes := video.likes;
      this.comments := comments;
      newComment := [];
      isPlaying := false;
      isMuted := true;
    }

    /** The auto-play effect: `playStarted` is whether `play()` resolves. */
    method AutoPlay(playStarted: bool)
      modifies this
      ensures isPlaying == (old(isPlaying) || (hasElement && playStarted))
      ensures likes == old(likes) && comments == old(comments) && newComment == old(newComment) && isMuted == old(isMuted)
    {
      if hasElement && playStarted {
        isPlaying := true;
      }
    }

    /** The video's `onLoadedData`: with an element it calls `play()` and
        marks the video playing at once, without waiting for `play()` to
        resolve, so a rejected auto-play still ends up shown as playing. */
    method LoadedData()
      modifies this
      ensures isPlaying == (old(isPlaying) || hasElement)
      ensures likes == old(likes) && comments == old(comments) && newComment == old(newComment) && isMuted == old(isMuted)
    {
      if hasElement {
        isPlaying := true;
      }
    }

    /** `handleLike`: one more like, never fewer. */
    method HandleLike()
      modifies this
      ensures likes == old(likes) + 1
      ensures comments == old(comments) && newComment == old(newComment)
      ensures isPlaying == old(isPlaying) && isMuted == old(isMuted)
    {
      likes := likes + 1;
    }

    /** The comment input's `onChange`. */
    method SetNewComment(text: string)
      modifies this
      ensures newComment == text
      ensures likes == old(likes) && comments == old(comments)
      ensures isPlaying == old(isPlaying) && isMuted == old(isMuted)
    {
      newComment := text;
    }

    /** `handleAddComment`: a comment that is not blank is appended as typed
        and the input is cleared; a blank one changes nothing. */
    method HandleAddComment()
      modifies this
      ensures !IsBlank(old(newComment)) ==> comments == old(comments) + [old(newComment)] && newComment == []
      ensures IsBlank(old(newComment)) ==> comments == old(comments) && newComment == old(newComment)
      ensures likes == old(likes) && isPlaying == old(isPlaying) && isMuted == old(isMuted)
    {
      TrimEmptyIffBlank(newComment);
      if Trim(newComment) != [] {
        comments := comments + [newComment];
        newComment := [];
      }
    }

    /** `handlePlayPause`: flips `isPlaying` when the element exists. */
    method HandlePlayPause()
      modifies this
      ensures isPlaying == (if hasElement then !old(isPlaying) else old(isPlaying))
      ensures likes == old(likes) && comments == old(comments) && newComment == old(newComment) && isMuted == old(isMuted)
    {
      if hasElement {
        isPlaying := !isPlaying;
      }
    }

    /** `handleMuteToggle`: flips `isMuted` when the element exists. */
    method HandleMuteToggle()
      modifies this
      ensures isMuted == (if hasElement then !old(isMuted) else old(isMuted))
      ensures likes == old(likes) && comments == old(comments) && newComment == old(newComment) && isPlaying == old(isPlaying)
    {
      if hasElement {
        isMuted := !isMuted;
      }
    }
  }
}
