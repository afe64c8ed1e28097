/** Track helpers shared by the player: the `m:ss` duration label and the
    conversion of a catalog track into the record the player is given. */
module TrackUtils {
  import opened Common
  import opened JsString
  import opened JsNumber
  import opened Catalog
  import opened SoundCloud
  import Actions

  /** The placeholder shown when a track has neither artwork nor avatar. */
  const PLACEHOLDER_TRACK := "/placeholder-track.jpg"

  /** JavaScript's `a % b` for `b > 0`: the remainder takes the sign of
      `a`. */
  function JsRem(a: int, b: int): (r: int)
    requires b > 0
    ensures -b < r < b
    ensures a >= 0 ==> r == a % b
    ensures a <= 0 ==> r <= 0
    ensures exists q: int :: a - r == b * q
  {
    if a >= 0 then
      assert a - a % b == b * (a / b);
      a % b
    else
      var q := (-a) / b;
      assert -a == b * q + (-a) % b;
      assert a - -((-a) % b) == b * -q;
      -((-a) % b)
  }

  /** `${minutes}:${seconds.toString().padStart(2, '0')}`. */
  function ClockFace(minutes: int, seconds: int): (r: string)
    ensures |r| >= 4
  {
    IntToString(minutes) + ":" + PadStart(IntToString(seconds), 2, '0')
  }

  /** `formatDuration(ms)`: whole seconds `floor(ms / 1000)`, shown as
      minutes `floor(seconds / 60)` and the remainder `seconds % 60`. */
  function FormatDuration(ms: int): (r: string)
    ensures |r| >= 4
  {
    var seconds := ms / 1000;
    ClockFace(seconds / 60, JsRem(seconds, 60))
  }

  lemma TwoDigits(s: nat)
    requires s < 100
    ensures var f := PadStart(IntToString(s), 2, '0');
            |f| == 2 && AllDigits(f) && DigitsValue(f) == s
  {
    var d := NatToString(s);
    NatToStringRoundTrip(s);
    var f := PadStart(d, 2, '0');
    if s < 10 {
      assert f == ['0'] + d;
      assert f[..1] == "0";
    } else {
      assert |d| == 2 by {
        assert d == NatToString(s / 10) + [DigitChar(s % 10)];
      }
      assert f == d;
    }
  }

  /** Where the fields of a clock face sit. */
  lemma ClockFaceFields(head: string, tail: string)
    requires |tail| == 2
    ensures var r := head + ":" + tail;
            |r| == |head| + 3 && r[|r| - 3] == ':' && r[..|r| - 3] == head && r[|r| - 2..] == tail
  {
  }

  /** For a duration that is not negative the label is the minutes in
      decimal, a colon and exactly two digits for the seconds; the seconds
      field is below 60, and reading both fields back gives the whole
      seconds of the duration. */
  lemma FormatDurationSpec(ms: int)
    requires ms >= 0
    ensures var r := FormatDuration(ms); var total := ms / 1000;
            && r[|r| - 3] == ':'
            && r[..|r| - 3] == IntToString(total / 60)
            && DigitsValue(r[..|r| - 3]) == total / 60
            && AllDigits(r[|r| - 2..]) && DigitsValue(r[|r| - 2..]) == total % 60 < 60
            && DigitsValue(r[..|r| - 3]) * 60 + DigitsValue(r[|r| - 2..]) == total
  {
    var total: nat := ms / 1000;
    var m: nat, s: nat := total / 60, total % 60;
    assert m * 60 + s == total;
    var head, tail := IntToString(m), PadStart(IntToString(s), 2, '0');
    assert JsRem(total, 60) == s;
    assert FormatDuration(ms) == head + ":" + tail;
    TwoDigits(s);
    NatToStringRoundTrip(m);
    ClockFaceFields(head, tail);
  }

  /** A negative duration is shown as JavaScript computes it, with a
      negative remainder: -1000 ms is `-1:-1`. */
  lemma FormatDurationNegative()
    ensures FormatDuration(-1000) == "-1:-1"
  {
    assert -1000 / 1000 == -1;
    assert -1 / 60 == -1;
    assert JsRem(-1, 60) == -1;
    assert DigitChar(1) == '1';
    assert IntToString(-1) == "-1";
    assert PadStart("-1", 2, '0') == "-1";
  }

  /** The image shown for a track: its artwork with the first `large`
      turned into `t300x300`, else the uploader's avatar, else the
      placeholder. */
  function ImageUrl(track: Track): (r: string)
    ensures r != ""
    ensures track.artworkUrl == "" ==> r == if track.user.avatarUrl != "" then track.user.avatarUrl else PLACEHOLDER_TRACK
  {
    if track.artworkUrl != "" then
      var r := ReplaceFirst(track.artworkUrl, "large", "t300x300");
      assert r != "" by { ReplaceFirstLength(track.artworkUrl, "large", "t300x300"); }
      r
    else if track.user.avatarUrl != "" then track.user.avatarUrl
    else PLACEHOLDER_TRACK
  }

  /** Replacing the first occurrence changes the length by the difference
      of the two patterns, or not at all. */
  lemma ReplaceFirstLength(s: string, pat: string, rep: string)
    ensures var r := ReplaceFirst(s, pat, rep);
            |r| == |s| || |r| == |s| - |pat| + |rep|
  {
  }

  /** The record for a track and its stream URL: the track's title and
      uploader, an image that is never empty, the length in whole seconds,
      and the stream URL as given. */
  function Selected(track: Track, audioUrl: string): (s: SelectedTrack)
    ensures s.title == track.title && s.artist == track.user.username && s.audioUrl == audioUrl
    ensures s.imageUrl != ""
    ensures s.duration * 1000 <= track.duration < (s.duration + 1) * 1000
  {
    SelectedTrack(IntToString(track.id), track.title, track.user.username, ImageUrl(track), track.duration / 1000, audioUrl)
  }

  /** The record names the track by its id in decimal, which reads back as
      the id; its duration is the track's length in whole seconds. */
  lemma SelectedSpec(track: Track, audioUrl: string)
    ensures var s := Selected(track, audioUrl);
            && ParseInt(s.trackId) == Int(track.id)
            && s.duration * 1000 <= track.duration < (s.duration + 1) * 1000
            && s.artist == track.user.username && s.title == track.title && s.audioUrl == audioUrl
  {
    ParseIntOfDecimal(track.id, "");
    assert IntToString(track.id) + "" == IntToString(track.id);
  }

  /** `convertToSelectedTrack(track)`: resolve the stream first (its failure
      propagates), then build the record. */
  method ConvertToSelectedTrack(client: TokenManager, track: Track, now: int, env: TokenEnv, response: Response<string>)
    returns (r: Result<SelectedTrack, Error>)
    requires Sane(env)
    modifies client
    ensures var run := AccessTokenRun(old(client.store), now, env);
            var stream := if run.result.Failure? then Failure(AuthFailure) else Actions.StreamOutcome(response);
            && client.store == Written(old(client.store), run.written)
            && client.trace == old(client.trace) + run.effects
                 + (if run.result.Success?
                    then [StreamCall(Actions.StreamPath(IntToString(track.id)), OAuth(run.result.value))]
                    else [])
            && r == if stream.Failure? then Failure(stream.error) else Success(Selected(track, stream.value))
  {
    var audioUrl := Actions.GetStream(client, IntToString(track.id), now, env, response);
    if audioUrl.Failure? {
      return Failure(audioUrl.error);
    }
    r := Success(Selected(track, audioUrl.value));
  }
}
