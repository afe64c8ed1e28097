/** The catalog records the core reads: the fields of a SoundCloud track and
    its uploader that the token client, the track helpers and the player
    touch, and the record handed to the player. A `null` or empty string
    field is the empty string here: every use of such a field tests only
    whether it is truthy. */
module Catalog {
  /** The uploader of a track. */
  datatype User = User(username: string, avatarUrl: string, city: string)

  /** A track as the search endpoint returns it. `duration` is in
      milliseconds. */
  datatype Track = Track(
    id: int,
    title: string,
    duration: int,
    artworkUrl: string,
    user: User,
    description: string,
    commentCount: int,
    genre: string,
    createdAt: string
  )

  /** The record the player is given for a track; `duration` is in whole
      seconds. */
  datatype SelectedTrack = SelectedTrack(
    trackId: string,
    title: string,
    artist: string,
    imageUrl: string,
    duration: int,
    audioUrl: string
  )
}
