/**
 * The feed's video player (src/components/feed/VideoPlayer.tsx). The video
 * element is reduced to whether it is playing; `play()` is an oracle that
 * resolves or is rejected (an autoplay policy, say), and calling it on a video
 * that already plays resolves.
 */
module Player {
  import opened Wrappers

  /** The icon on the control overlay. */
  datatype Icon = PlayIcon | PauseIcon

  /** Whether `play()` resolves: at once for a video that already plays, otherwise as the environment allows. */
  function PlayResolves(elementPlaying: bool, playAllowed: bool): bool {
    elementPlaying || playAllowed
  }

  class VideoPlayer {
    /** `videoRef.current` is set. */
    const hasVideo: bool
    /** The `isVisible` prop of the last render. */
    var isVisible: bool
    var isPlaying: bool
    var showControls: bool
    /** The element itself is playing (not paused). */
    var elementPlaying: bool

    /** `isPlaying` mirrors the element, and without an element nothing plays. */
    ghost predicate Valid()
      reads this
    {
      isPlaying == elementPlaying && (!hasVideo ==> !elementPlaying)
    }

    /** The effect for a new `isVisible`: play when visible, pause when not. */
    method VisibilityEffect(playAllowed: bool)
      requires Valid()
      modifies this`isPlaying, this`elementPlaying
      ensures Valid()
      ensures !hasVideo ==> isPlaying == old(isPlaying)
      ensures hasVideo && isVisible ==> isPlaying == PlayResolves(old(elementPlaying), playAllowed)
      ensures hasVideo && !isVisible ==> !isPlaying
    {
      if !hasVideo {
        return;
      }
      if isVisible {
        var resolved := PlayResolves(elementPlaying, playAllowed);
        elementPlaying := resolved;
        isPlaying := resolved;
      } else {
        elementPlaying := false;
        isPlaying := false;
      }
    }

    /** Mounting: paused, no overlay, and the effect runs once for the initial `isVisible`. */
    constructor (hasVideo: bool, isVisible: bool, playAllowed: bool)
      ensures Valid()
      ensures this.hasVideo == hasVideo && this.isVisible == isVisible && !showControls
      ensures isPlaying == (hasVideo && isVisible && playAllowed)
    {
      this.hasVideo, this.isVisible := hasVideo, isVisible;
      isPlaying, elementPlaying, showControls := false, false, false;
      new;
      VisibilityEffect(playAllowed);
    }

    /** A render with a new `isVisible` prop; the effect runs only when it changed. */
    method SetVisible(visible: bool, playAllowed: bool)
      requires Valid()
      modifies this`isVisible, this`isPlaying, this`elementPlaying
      ensures Valid()
      ensures isVisible == visible && showControls == old(showControls)
      ensures visible == old(isVisible) || !hasVideo ==> isPlaying == old(isPlaying)
      ensures visible != old(isVisible) && hasVideo && visible ==> isPlaying == (old(isPlaying) || playAllowed)
      ensures visible != old(isVisible) && hasVideo && !visible ==> !isPlaying
    {
      if visible != isVisible {
        isVisible := visible;
        VisibilityEffect(playAllowed);
      }
    }

    /** `togglePlayPause`: pause a playing video; otherwise try to play, staying paused if `play()` is rejected. */
    method TogglePlayPause(playAllowed: bool)
      requires Valid()
      modifies this`isPlaying, this`elementPlaying
      ensures Valid()
      ensures isVisible == old(isVisible) && showControls == old(showControls)
      ensures !hasVideo ==> isPlaying == old(isPlaying)
      ensures hasVideo && old(isPlaying) ==> !isPlaying
      ensures hasVideo && !old(isPlaying) ==> isPlaying == playAllowed
    {
      if !hasVideo {
        return;
      }
      if isPlaying {
        elementPlaying := false;
        isPlaying := false;
      } else if playAllowed {
        elementPlaying := true;
        isPlaying := true;
      }
    }

    /** A click on the overlay, which exists only while the pointer is over the player. */
    method ClickOverlay(playAllowed: bool)
      requires Valid()
      modifies this`isPlaying, this`elementPlaying
      ensures Valid()
      ensures !old(showControls) ==> isPlaying == old(isPlaying)
      ensures old(showControls) && hasVideo && old(isPlaying) ==> !isPlaying
      ensures old(showControls) && hasVideo && !old(isPlaying) ==> isPlaying == playAllowed
    {
      if showControls {
        TogglePlayPause(playAllowed);
      }
    }

    /** The element started playing on its own account (its `play` event). */
    method OnPlayEvent()
      requires Valid() && hasVideo
      modifies this`isPlaying, this`elementPlaying
      ensures Valid() && isPlaying
      ensures isVisible == old(isVisible) && showControls == old(showControls)
    {
      elementPlaying := true;
      isPlaying := true;
    }

    /** The element paused on its own account (its `pause` event). */
    method OnPauseEvent()
      requires Valid()
      modifies this`isPlaying, this`elementPlaying
      ensures Valid() && !isPlaying
      ensures isVisible == old(isVisible) && showControls == old(showControls)
    {
      elementPlaying := false;
      isPlaying := false;
    }

    method MouseEnter()
      modifies this`showControls
      ensures showControls
    {
      showControls := true;
    }

    method MouseLeave()
      modifies this`showControls
      ensures !showControls
    {
      showControls := false;
    }

    /** The overlay: present only while hovered, showing Pause exactly when playing. */
    function Overlay(): (icon: Option<Icon>)
      reads this
      ensures icon.Some? <==> showControls
      ensures icon == Some(PauseIcon) <==> showControls && isPlaying
    {
      if !showControls then None else Some(if isPlaying then PauseIcon else PlayIcon)
    }
  }
}
