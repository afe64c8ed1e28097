/** The site-wide music player: the state record the provider keeps, the
    one-shot autoplay flag, and what the provider asks of the hidden audio
    element. Actions are the provider's callbacks; events are the audio
    element's listeners. The element exists exactly while a track is set,
    since it is rendered only then. */
module MusicPlayer {
  import opened Common
  import opened Catalog

  /** The provider's state record. Times are in seconds. */
  datatype PlayerState = PlayerState(
    currentTrack: Option<SelectedTrack>,
    isPlaying: bool,
    currentTime: real,
    duration: real,
    volume: real,
    isLoading: bool)

  /** The state the provider starts in. */
  const INITIAL := PlayerState(None, false, 0.0, 0.0, 1.0, false)

  /** What the provider asks of the audio element: point it at a track's
      stream (by rendering it with that `src`), play on request, play on
      its own when a new track is ready, pause, seek, change the volume. */
  datatype Command = SetSource(audioUrl: string) | Play | AutoPlay | Pause | Seek(time: real) | Volume(volume: real)

  /** How many autoplays the element was asked for since the last track
      was set. */
  function AutoPlaysSinceSource(cs: seq<Command>): nat {
    if cs == [] then 0
    else match cs[|cs| - 1]
      case SetSource(_) => 0
      case AutoPlay => AutoPlaysSinceSource(cs[..|cs| - 1]) + 1
      case _ => AutoPlaysSinceSource(cs[..|cs| - 1])
  }

  /** Setting a source starts a fresh count; an autoplay adds one; every
      other command leaves the count as it was. */
  lemma AutoPlaysAppend(cs: seq<Command>, c: Command)
    ensures AutoPlaysSinceSource(cs + [c]) ==
              if c.SetSource? then 0
              else if c == AutoPlay then AutoPlaysSinceSource(cs) + 1
              else AutoPlaysSinceSource(cs)
  {
    assert (cs + [c])[..|cs|] == cs;
  }

  /** `audio.duration || 0`, with `None` standing for NaN: NaN and 0 both
      give 0, any other length is kept. */
  function DurationOf(d: Option<real>): (r: real)
    ensures r == 0.0 <==> d.None? || d.value == 0.0
    ensures r != 0.0 ==> d == Some(r)
  {
    match d
    case None => 0.0
    case Some(x) => if x == 0.0 then 0.0 else x
  }

  /** `MusicPlayerProvider`'s mutable parts. */
  class Player {
    /** The state record. */
    var state: PlayerState
    /** The `shouldAutoPlay` ref: play once when the new track is ready. */
    var shouldAutoPlay: bool
    /** Every command given to the audio element, oldest first. */
    var commands: seq<Command>

    /** The element exists while a track is set. */
    predicate HasAudio()
      reads this
    {
      state.currentTrack.Some?
    }

    /** Autoplay fires at most once per track set: the autoplays already
        given since the last track was set and the one still pending never
        add up to more than one. A pending autoplay has a track to play. */
    predicate Valid()
      reads this
    {
      && AutoPlaysSinceSource(commands) + (if shouldAutoPlay then 1 else 0) <= 1
      && (shouldAutoPlay ==> HasAudio())
    }

    constructor ()
      ensures Valid()
      ensures state == INITIAL && !shouldAutoPlay && commands == []
    {
      state := INITIAL;
      shouldAutoPlay := false;
      commands := [];
    }

    /** `setCurrentTrack(track)`: the new track, stopped at 0 with no known
        length and loading, and an autoplay pending; the volume stays. */
    method SetCurrentTrack(track: SelectedTrack)
      requires Valid()
      modifies this
      ensures Valid()
      ensures state == old(state).(currentTrack := Some(track), isPlaying := false, currentTime := 0.0, duration := 0.0, isLoading := true)
      ensures shouldAutoPlay
      ensures commands == old(commands) + [SetSource(track.audioUrl)]
    {
      shouldAutoPlay := true;
      state := state.(currentTrack := Some(track), isPlaying := false, currentTime := 0.0, duration := 0.0, isLoading := true);
      AutoPlaysAppend(commands, SetSource(track.audioUrl));
      commands := commands + [SetSource(track.audioUrl)];
    }

    /** `play()`: asks the element to play and nothing else; `isPlaying`
        turns true only when the element reports it has started. */
    method Play()
      requires Valid()
      modifies this
      ensures Valid()
      ensures state == old(state) && shouldAutoPlay == old(shouldAutoPlay)
      ensures commands == old(commands) + (if HasAudio() then [Command.Play] else [])
    {
      if HasAudio() {
        AutoPlaysAppend(commands, Command.Play);
        commands := commands + [Command.Play];
      }
    }

    /** The element refused a requested play: not playing. */
    method PlayRejected()
      modifies this
      ensures state == old(state).(isPlaying := false)
      ensures shouldAutoPlay == old(shouldAutoPlay) && commands == old(commands)
    {
      state := state.(isPlaying := false);
    }

    /** `pause()`: with an element, pause it and record not playing;
        without one, nothing. */
    method Pause()
      requires Valid()
      modifies this
      ensures Valid()
      ensures HasAudio() ==> state == old(state).(isPlaying := false) && commands == old(commands) + [Command.Pause]
      ensures !HasAudio() ==> state == old(state) && commands == old(commands)
      ensures shouldAutoPlay == old(shouldAutoPlay)
    {
      if HasAudio() {
        AutoPlaysAppend(commands, Command.Pause);
        commands := commands + [Command.Pause];
        state := state.(isPlaying := false);
      }
    }

    /** `togglePlayPause()`: pause when playing, play otherwise. */
    method TogglePlayPause()
      requires Valid()
      modifies this
      ensures Valid()
      ensures shouldAutoPlay == old(shouldAutoPlay)
      ensures old(state.isPlaying) && HasAudio() ==> state == old(state).(isPlaying := false) && commands == old(commands) + [Command.Pause]
      ensures !old(state.isPlaying) ==> state == old(state) && commands == old(commands) + (if HasAudio() then [Command.Play] else [])
      ensures !HasAudio() ==> state == old(state) && commands == old(commands)
    {
      if state.isPlaying {
        Pause();
      } else {
        Play();
      }
    }

    /** `seekTo(time)`: with an element, move it and record the time. */
    method SeekTo(time: real)
      requires Valid()
      modifies this
      ensures Valid()
      ensures HasAudio() ==> state == old(state).(currentTime := time) && commands == old(commands) + [Seek(time)]
      ensures !HasAudio() ==> state == old(state) && commands == old(commands)
      ensures shouldAutoPlay == old(shouldAutoPlay)
    {
      if HasAudio() {
        AutoPlaysAppend(commands, Seek(time));
        commands := commands + [Seek(time)];
        state := state.(currentTime := time);
      }
    }

    /** `setVolume(volume)`: with an element, set its volume and record
        it. */
    method SetVolume(volume: real)
      requires Valid()
      modifies this
      ensures Valid()
      ensures HasAudio() ==> state == old(state).(volume := volume) && commands == old(commands) + [Volume(volume)]
      ensures !HasAudio() ==> state == old(state) && commands == old(commands)
      ensures shouldAutoPlay == old(shouldAutoPlay)
    {
      if HasAudio() {
        AutoPlaysAppend(commands, Volume(volume));
        commands := commands + [Volume(volume)];
        state := state.(volume := volume);
      }
    }

    /** `timeupdate`: the element's position. */
    method TimeUpdate(elementTime: real)
      modifies this
      ensures state == old(state).(currentTime := elementTime)
      ensures shouldAutoPlay == old(shouldAutoPlay) && commands == old(commands)
    {
      state := state.(currentTime := elementTime);
    }

    /** `durationchange`: the element's length (`None` for NaN), 0 when
        unknown; loading is over. */
    method DurationChange(elementDuration: Option<real>)
      modifies this
      ensures state == old(state).(duration := DurationOf(elementDuration), isLoading := false)
      ensures shouldAutoPlay == old(shouldAutoPlay) && commands == old(commands)
    {
      state := state.(duration := DurationOf(elementDuration), isLoading := false);
    }

    /** `loadstart`: loading. */
    method LoadStart()
      modifies this
      ensures state == old(state).(isLoading := true)
      ensures shouldAutoPlay == old(shouldAutoPlay) && commands == old(commands)
    {
      state := state.(isLoading := true);
    }

    /** `canplay`: loading is over; a pending autoplay is given once and
        cleared. A refused autoplay is only logged, so it changes nothing
        here. */
    method CanPlay()
      requires Valid()
      modifies this
      ensures Valid()
      ensures state == old(state).(isLoading := false)
      ensures !shouldAutoPlay
      ensures commands == old(commands) + (if old(shouldAutoPlay) then [AutoPlay] else [])
    {
      state := state.(isLoading := false);
      if shouldAutoPlay {
        shouldAutoPlay := false;
        AutoPlaysAppend(commands, AutoPlay);
        commands := commands + [AutoPlay];
      }
    }

    /** `ended`: stopped, back at the start. */
    method Ended()
      modifies this
      ensures state == old(state).(isPlaying := false, currentTime := 0.0)
      ensures shouldAutoPlay == old(shouldAutoPlay) && commands == old(commands)
    {
      state := state.(isPlaying := false, currentTime := 0.0);
    }

    /** `play` event: the element has started. */
    method Played()
      modifies this
      ensures state == old(state).(isPlaying := true)
      ensures shouldAutoPlay == old(shouldAutoPlay) && commands == old(commands)
    {
      state := state.(isPlaying := true);
    }

    /** `pause` event: the element has stopped. */
    method Paused()
      modifies this
      ensures state == old(state).(isPlaying := false)
      ensures shouldAutoPlay == old(shouldAutoPlay) && commands == old(commands)
    {
      state := state.(isPlaying := false);
    }

    /** `error`: neither loading nor playing, and no autoplay pending. */
    method Error()
      requires Valid()
      modifies this
      ensures Valid()
      ensures state == old(state).(isLoading := false, isPlaying := false)
      ensures !shouldAutoPlay && commands == old(commands)
    {
      state := state.(isLoading := false, isPlaying := false);
      shouldAutoPlay := false;
    }
  }
}
