/**
 * Stand-in for the audio library's sound object: an opaque handle whose only
 * observable state is whether it is loaded and whether it is playing.
 */
module Media {

  class Sound {
    var loaded: bool
    var playing: bool

    /** A freshly created sound is loaded and not yet playing. */
    constructor Create()
      ensures loaded && !playing
    {
      loaded, playing := true, false;
    }

    /** Starting playback succeeds only on a loaded sound; `ok` reports whether it did. */
    method Play() returns (ok: bool)
      modifies this
      ensures ok == old(loaded)
      ensures loaded == old(loaded)
      ensures playing == (old(loaded) || old(playing))
    {
      ok := loaded;
      if loaded {
        playing := true;
      }
    }

    method Pause()
      modifies this
      ensures loaded == old(loaded) && !playing
    {
      playing := false;
    }

    method Stop()
      modifies this
      ensures loaded == old(loaded) && !playing
    {
      playing := false;
    }

    /** Releases the decoder; an unloaded sound cannot play. */
    method Unload()
      modifies this
      ensures !loaded && !playing
    {
      loaded, playing := false, false;
    }
  }
}
