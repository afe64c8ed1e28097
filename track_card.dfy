/** What a track card shows: the artwork and avatar with their fallbacks
    when an image fails to load, the duration label, the description cut
    at 100 characters, and which optional details appear. */
module TrackCard {
  import opened Common
  import opened JsString
  import opened Catalog
  import TrackUtils

  const PLACEHOLDER_TRACK := TrackUtils.PLACEHOLDER_TRACK
  const PLACEHOLDER_AVATAR := "/placeholder-avatar.jpg"

  /** Descriptions longer than this are cut. */
  const DESCRIPTION_LIMIT := 100

  /** `getArtworkUrl()` for the card's two error flags, set when the artwork
      or the avatar image fails to load: with no failure the image the
      player's record carries, after one the avatar or the placeholder. The
      artwork tile runs the same code. */
  function ArtworkUrl(track: Track, imageError: bool, avatarError: bool): (r: string)
    ensures !imageError ==> r == TrackUtils.ImageUrl(track)
    ensures imageError ==> r == PLACEHOLDER_TRACK || r == track.user.avatarUrl
  {
    if imageError then
      (if avatarError then PLACEHOLDER_TRACK else track.user.avatarUrl)
    else if track.artworkUrl != "" then ReplaceFirst(track.artworkUrl, "large", "t300x300")
    else if track.user.avatarUrl != "" then track.user.avatarUrl
    else PLACEHOLDER_TRACK
  }

  /** `getAvatarUrl()`: the placeholder after a load error or when the user
      has no avatar. */
  function AvatarUrl(track: Track, avatarError: bool): (r: string)
    ensures r != ""
    ensures r == PLACEHOLDER_AVATAR <==> avatarError || track.user.avatarUrl == "" || track.user.avatarUrl == PLACEHOLDER_AVATAR
    ensures !avatarError && track.user.avatarUrl != "" ==> r == track.user.avatarUrl
  {
    if avatarError || track.user.avatarUrl == "" then PLACEHOLDER_AVATAR else track.user.avatarUrl
  }

  /** The artwork fallback chain. Both images failed: the track
      placeholder. Only the artwork failed: the avatar, unguarded, so
      possibly empty. No failure: the artwork with only its first `large`
      turned into `t300x300` (unchanged when it has none), else the avatar,
      else the placeholder. */
  lemma ArtworkFallback(track: Track, imageError: bool, avatarError: bool)
    ensures imageError && avatarError ==> ArtworkUrl(track, imageError, avatarError) == PLACEHOLDER_TRACK
    ensures imageError && !avatarError ==> ArtworkUrl(track, imageError, avatarError) == track.user.avatarUrl
    ensures !imageError && track.artworkUrl != "" ==>
              var a := track.artworkUrl;
              && ((forall j :: 0 <= j <= |a| ==> !OccursAt(a, "large", j)) ==> ArtworkUrl(track, imageError, avatarError) == a)
              && (forall i: nat :: OccursAt(a, "large", i) && (forall j: nat :: j < i ==> !OccursAt(a, "large", j)) ==>
                    ArtworkUrl(track, imageError, avatarError) == a[..i] + "t300x300" + a[i + 5..])
    ensures !imageError && track.artworkUrl == "" ==>
              ArtworkUrl(track, imageError, avatarError) == if track.user.avatarUrl != "" then track.user.avatarUrl else PLACEHOLDER_TRACK
  {
    if !imageError && track.artworkUrl != "" {
      var a := track.artworkUrl;
      assert ArtworkUrl(track, imageError, avatarError) == ReplaceFirst(a, "large", "t300x300");
    }
  }

  /** The card's artwork is empty only when the artwork failed, the avatar
      did not, and the user has no avatar: the one path with no
      placeholder. */
  lemma ArtworkEmptyOnlyWhen(track: Track, imageError: bool, avatarError: bool)
    ensures ArtworkUrl(track, imageError, avatarError) == "" <==> imageError && !avatarError && track.user.avatarUrl == ""
  {
    if !imageError && track.artworkUrl != "" {
      TrackUtils.ReplaceFirstLength(track.artworkUrl, "large", "t300x300");
    }
  }

  /** The card's duration label: the same `m:ss` form as the player's. */
  function DurationLabel(track: Track): string {
    TrackUtils.FormatDuration(track.duration)
  }

  /** The label of a track of non-negative length shows its whole minutes,
      and two-digit seconds below 60 that make up the rest. */
  lemma DurationLabelSpec(track: Track)
    requires track.duration >= 0
    ensures var r := DurationLabel(track); var total := track.duration / 1000;
            && r[..|r| - 3] == IntToString(total / 60)
            && AllDigits(r[|r| - 2..]) && DigitsValue(r[|r| - 2..]) == total % 60
  {
    TrackUtils.FormatDurationSpec(track.duration);
  }

  /** The description as shown: not at all when empty; cut to its first
      100 characters followed by `...` when longer; otherwise whole. */
  function ShownDescription(description: string): (r: Option<string>)
    ensures r.None? <==> description == ""
    ensures r.Some? ==> |r.value| <= DESCRIPTION_LIMIT + 3
    ensures r.Some? && |description| <= DESCRIPTION_LIMIT ==> r.value == description
    ensures r.Some? && |description| > DESCRIPTION_LIMIT ==>
              |r.value| == DESCRIPTION_LIMIT + 3
              && r.value[..DESCRIPTION_LIMIT] == description[..DESCRIPTION_LIMIT]
              && r.value[DESCRIPTION_LIMIT..] == "..."
  {
    if description == "" then None
    else if |description| > DESCRIPTION_LIMIT then Some(description[..DESCRIPTION_LIMIT] + "...")
    else Some(description)
  }

  /** Which optional details the card shows. */
  datatype Details = Details(city: bool, date: bool, comments: bool, genre: bool)

  /** The city, date and genre appear when present; the comment count only
      when positive. */
  function ShownDetails(track: Track): (d: Details)
    ensures d.city <==> |track.user.city| > 0
    ensures d.date <==> |track.createdAt| > 0
    ensures d.comments <==> track.commentCount >= 1
    ensures d.genre <==> |track.genre| > 0
  {
    Details(track.user.city != "", track.createdAt != "", track.commentCount > 0, track.genre != "")
  }
}
