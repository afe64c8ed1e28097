/** The per-track waveform player on a track card. It resolves the track's
    stream only on first use and caches the URL; later clicks only toggle
    the waveform player. A download reuses the cached URL or resolves one.
    The waveform player is an optional abstract object whose events arrive
    as method calls; the stream resolution, the waveform load and the file
    download are asynchronous, and their outcomes arrive as parameters. */
module AudioPlayer {
  import opened Common
  import opened JsString
  import opened SoundCloud
  import TrackUtils

  /** The component's state hooks, read together. Times are in seconds. */
  datatype Hooks = Hooks(
    isLoading: bool,
    isPlaying: bool,
    duration: real,
    currentTime: real,
    audioUrl: Option<string>,
    isDownloading: bool)

  /** What the component asks of the outside world: the stream of a track
      (the `getStream` server action), the waveform player to load a URL,
      to toggle, or to play, a fetch of the audio file, and the browser to
      save a file under a name. */
  datatype Effect = StreamRequest(trackId: string) | Load(url: string) | PlayPause | Play | Fetch(url: string) | Save(fileName: string)

  /** The name a download is saved under: `track-`, the track id, `.mp3`. */
  function FileName(trackId: string): (f: string)
    ensures |f| == |trackId| + 10
    ensures f[..6] == "track-" && f[|f| - 4..] == ".mp3"
    ensures f[6..|f| - 4] == trackId
  {
    "track-" + trackId + ".mp3"
  }

  /** `q` minutes in seconds. */
  function WholeMinutes(q: int): real {
    60.0 * q as real
  }

  /** JavaScript's `x % 60` on numbers: the remainder of the division
      truncated toward zero, with the sign of `x`. */
  function JsRem60(x: real): (r: real)
    ensures x >= 0.0 ==> 0.0 <= r < 60.0
    ensures x <= 0.0 ==> -60.0 < r <= 0.0
    ensures exists q: int :: x - r == WholeMinutes(q)
  {
    if x >= 0.0 then
      var q := (x / 60.0).Floor;
      assert x - (x - 60.0 * q as real) == WholeMinutes(q);
      x - 60.0 * q as real
    else
      var q := ((-x) / 60.0).Floor;
      assert x - -((-x) - 60.0 * q as real) == WholeMinutes(-q);
      -((-x) - 60.0 * q as real)
  }

  /** `formatTime(seconds)`: `floor(seconds / 60)`, a colon, and
      `floor(seconds % 60)` padded to two digits. */
  function FormatTime(seconds: real): (r: string)
    ensures |r| >= 4
  {
    TrackUtils.ClockFace((seconds / 60.0).Floor, JsRem60(seconds).Floor)
  }

  /** Whole minutes: a time within the `q`-th minute divides by 60 to
      `q`. */
  lemma FloorMinutes(s: real, q: int)
    requires 60.0 * q as real <= s < 60.0 * (q + 1) as real
    ensures (s / 60.0).Floor == q
  {
  }

  /** Taking away whole seconds takes them away from the floor. */
  lemma FloorShift(s: real, k: int)
    ensures (s - k as real).Floor == s.Floor - k
  {
  }

  /** A time that is not negative lies within the minute its whole seconds
      fall in. */
  lemma WithinMinute(s: real)
    requires s >= 0.0
    ensures 60.0 * (s.Floor / 60) as real <= s < 60.0 * (s.Floor / 60 + 1) as real
  {
    var n := s.Floor;
    var q, r := n / 60, n % 60;
    assert n == 60 * q + r && 0 <= r < 60;
    assert n as real == 60.0 * q as real + r as real;
  }

  /** For a time that is not negative, the fields are those of its whole
      seconds: the minutes `floor(seconds / 60)` and the seconds below 60. */
  lemma FormatTimeFields(s: real)
    requires s >= 0.0
    ensures (s / 60.0).Floor == s.Floor / 60
    ensures JsRem60(s).Floor == s.Floor % 60
  {
    var q := s.Floor / 60;
    WithinMinute(s);
    FloorMinutes(s, q);
    assert JsRem60(s) == s - (60 * q) as real;
    FloorShift(s, 60 * q);
  }

  /** The waveform player's clock shows a time that is not negative exactly
      as a track card labels a track of that many whole seconds. */
  lemma FormatTimeMatchesDuration(s: real)
    requires s >= 0.0
    ensures FormatTime(s) == TrackUtils.FormatDuration(s.Floor * 1000)
  {
    FormatTimeFields(s);
    WholeSeconds(s.Floor);
  }

  /** A whole number of seconds in milliseconds is that many whole
      seconds. */
  lemma WholeSeconds(n: int)
    ensures n * 1000 / 1000 == n
  {
  }

  /** The `AudioPlayer` component of one track. */
  class Player {
    /** The track this player plays. */
    const trackId: string
    var isLoading: bool
    var isPlaying: bool
    var duration: real
    var currentTime: real
    /** The cached stream URL; none until resolved. */
    var audioUrl: Option<string>
    var isDownloading: bool
    /** Whether the waveform player exists (`wavesurferRef` is set). */
    var hasWaveSurfer: bool
    /** Every effect requested, oldest first. */
    var effects: seq<Effect>

    /** The state hooks as one record. */
    function State(): Hooks
      reads this
    {
      Hooks(isLoading, isPlaying, duration, currentTime, audioUrl, isDownloading)
    }

    /** A cached URL is never empty, so the source's test for a missing
        URL is the test for none. */
    predicate Valid()
      reads this
    {
      audioUrl != Some("")
    }

    /** The play button is disabled while loading. */
    predicate PlayPauseEnabled()
      reads this
    {
      !isLoading
    }

    /** The download button is disabled while loading or downloading. */
    predicate DownloadEnabled()
      reads this
    {
      !isLoading && !isDownloading
    }

    constructor (trackId: string)
      ensures Valid()
      ensures this.trackId == trackId
      ensures State() == Hooks(false, false, 0.0, 0.0, None, false)
      ensures !hasWaveSurfer && effects == []
    {
      this.trackId := trackId;
      isLoading, isPlaying := false, false;
      duration, currentTime := 0.0, 0.0;
      audioUrl := None;
      isDownloading := false;
      hasWaveSurfer := false;
      effects := [];
    }

    /** The mount effect creates the waveform player unless one exists. */
    method Mount()
      modifies this
      ensures hasWaveSurfer
      ensures State() == old(State()) && effects == old(effects)
    {
      if !hasWaveSurfer {
        hasWaveSurfer := true;
      }
    }

    /** The unmount cleanup destroys the waveform player. */
    method Unmount()
      modifies this
      ensures !hasWaveSurfer
      ensures State() == old(State()) && effects == old(effects)
    {
      hasWaveSurfer := false;
    }

    /** `handlePlayPause()`, given what `getStream` gives (`Failure` when
        it throws) and whether the waveform player's load succeeds.
        With no cached URL: loading, one stream request; a URL that is not
        empty is cached and loaded only when the waveform player exists,
        and loading then lasts until `ready` unless the load fails. A
        thrown request ends loading; an empty URL, or no waveform player,
        leaves it on with nothing cached. With a cached URL: only a
        toggle, and no request. */
    method HandlePlayPause(stream: Result<string, Error>, loaded: bool)
      requires Valid()
      modifies this
      ensures Valid()
      ensures hasWaveSurfer == old(hasWaveSurfer)
      ensures old(audioUrl).Some? ==>
                State() == old(State()) && effects == old(effects) + (if hasWaveSurfer then [PlayPause] else [])
      ensures old(audioUrl).None? && stream.Failure? ==>
                State() == old(State()).(isLoading := false) && effects == old(effects) + [StreamRequest(trackId)]
      ensures old(audioUrl).None? && stream.Success? && (stream.value == "" || !hasWaveSurfer) ==>
                State() == old(State()).(isLoading := true) && effects == old(effects) + [StreamRequest(trackId)]
      ensures old(audioUrl).None? && stream.Success? && stream.value != "" && hasWaveSurfer ==>
                && State() == old(State()).(isLoading := loaded, audioUrl := Some(stream.value))
                && effects == old(effects) + [StreamRequest(trackId), Load(stream.value)]
    {
      if audioUrl.None? {
        isLoading := true;
        effects := effects + [StreamRequest(trackId)];
        match stream {
          case Success(url) =>
            if url != "" && hasWaveSurfer {
              audioUrl := Some(url);
              effects := effects + [Load(url)];
              if !loaded {
                isLoading := false;
              }
            }
          case Failure(_) =>
            isLoading := false;
        }
      } else if hasWaveSurfer {
        effects := effects + [PlayPause];
      }
    }

    /** `handleDownload()`, given what `getStream` gives (`Failure` when it
        throws). With a cached URL: start downloading it, no request. With
        none: one stream request; a URL that is not empty is cached and
        downloading starts; loading is off afterwards whatever happened. */
    method HandleDownload(stream: Result<string, Error>)
      requires Valid()
      modifies this
      ensures Valid()
      ensures hasWaveSurfer == old(hasWaveSurfer)
      ensures old(audioUrl).Some? ==>
                && State() == old(State()).(isDownloading := true)
                && effects == old(effects) + [Fetch(old(audioUrl).value)]
      ensures old(audioUrl).None? && stream.Success? && stream.value != "" ==>
                && State() == old(State()).(isLoading := false, audioUrl := Some(stream.value), isDownloading := true)
                && effects == old(effects) + [StreamRequest(trackId), Fetch(stream.value)]
      ensures old(audioUrl).None? && !(stream.Success? && stream.value != "") ==>
                && State() == old(State()).(isLoading := false)
                && effects == old(effects) + [StreamRequest(trackId)]
    {
      if audioUrl.None? {
        isLoading := true;
        effects := effects + [StreamRequest(trackId)];
        if stream.Success? && stream.value != "" {
          audioUrl := Some(stream.value);
          StartDownload(stream.value);
        }
        isLoading := false;
      } else {
        StartDownload(audioUrl.value);
      }
    }

    /** `downloadAudio(url)` up to its first wait: downloading, and a
        fetch of the file. */
    method StartDownload(url: string)
      modifies this
      ensures State() == old(State()).(isDownloading := true)
      ensures hasWaveSurfer == old(hasWaveSurfer)
      ensures effects == old(effects) + [Fetch(url)]
    {
      isDownloading := true;
      effects := effects + [Fetch(url)];
    }

    /** The rest of `downloadAudio`: the file is saved as `track-<id>.mp3`
        when the fetch succeeded, and downloading is off either way. */
    method FinishDownload(fetched: bool)
      requires isDownloading
      modifies this
      ensures State() == old(State()).(isDownloading := false)
      ensures hasWaveSurfer == old(hasWaveSurfer)
      ensures effects == old(effects) + (if fetched then [Save(FileName(trackId))] else [])
    {
      if fetched {
        effects := effects + [Save(FileName(trackId))];
      }
      isDownloading := false;
    }

    /** `ready`: the length, and playback starts on its own; loading is
        over. */
    method Ready(length: real)
      modifies this
      ensures hasWaveSurfer ==>
                && State() == old(State()).(duration := length, isPlaying := true, isLoading := false)
                && effects == old(effects) + [Play]
      ensures !hasWaveSurfer ==> State() == old(State()) && effects == old(effects)
      ensures hasWaveSurfer == old(hasWaveSurfer)
    {
      if hasWaveSurfer {
        duration := length;
        effects := effects + [Play];
        isPlaying := true;
        isLoading := false;
      }
    }

    /** `play` event. */
    method Played()
      modifies this
      ensures State() == old(State()).(isPlaying := true)
      ensures hasWaveSurfer == old(hasWaveSurfer) && effects == old(effects)
    {
      isPlaying := true;
    }

    /** `pause` event. */
    method Paused()
      modifies this
      ensures State() == old(State()).(isPlaying := false)
      ensures hasWaveSurfer == old(hasWaveSurfer) && effects == old(effects)
    {
      isPlaying := false;
    }

    /** `finish`: stopped, back at the start. */
    method Finished()
      modifies this
      ensures State() == old(State()).(isPlaying := false, currentTime := 0.0)
      ensures hasWaveSurfer == old(hasWaveSurfer) && effects == old(effects)
    {
      isPlaying := false;
      currentTime := 0.0;
    }

    /** `audioprocess` and `seeking`: the waveform player's position. */
    method Progress(position: real)
      modifies this
      ensures hasWaveSurfer ==> State() == old(State()).(currentTime := position)
      ensures !hasWaveSurfer ==> State() == old(State())
      ensures hasWaveSurfer == old(hasWaveSurfer) && effects == old(effects)
    {
      if hasWaveSurfer {
        currentTime := position;
      }
    }
  }
}
