# SoundCloud search front end, modelled in Dafny

This project models the core of a Next.js front end for SoundCloud. Users search the catalog, page through the results, and play or download tracks. It covers five parts:

- **The token client.** `getAccessToken`, `refreshToken`, `getNewToken` and `searchTracks` in `src/lib/soundcloud.ts` keep one OAuth token record in a key-value store under `soundcloud_token`. An unexpired record is served as it is. Otherwise the client tries a refresh grant (section 6 of RFC 6749) when the record holds a refresh token. It falls back to one client-credentials grant (section 4.4 of RFC 6749). Each record is stored to expire 60 seconds before the provider says it does.
- **The stream action.** `getStream` in `src/app/actions.ts` resolves a track to a playable URL, and `convertToSelectedTrack` in `src/lib/track-utils.ts` builds the record the player is given.
- **The search page.**
  - `src/app/search/page.tsx` reads `q` and `page` from the URL, using JavaScript's `trim`, `parseInt` and `Math.max`, with NaN carried through. It turns the page into an offset, runs one search and chooses the view.
  - Three components edit the URL's `URLSearchParams`: the pagination bar (`search-pagination.tsx`), the inline search box (`search-inline-form.tsx`) and the page's search form (`SearchForm.tsx`).
- **The track card and the artwork tile.** This covers the image fallback chain, the `m:ss` duration label, the cut description, and which details are shown.
- **The two players.**
  - The site-wide music player context holds a state record, a one-shot autoplay flag and event handlers for the audio element.
  - The per-track waveform player caches its stream URL, toggles, downloads, and formats its clock.

## How the model is built

- **Values and functions.** Code made of expressions becomes datatypes and functions, with lemmas about them. This covers trimming, parsing, URL-parameter editing, offsets, labels, fallbacks and views.
- **Classes for code that updates state in place.**
  - The token client is a `TokenManager` object. Its store is a `map`, and its `trace` records every call made to the store and to the upstream, in order.
  - `URLSearchParams` is a class whose `set`, `delete` and `get` are loops over its pair list. Each is proved against a specification function: `SetTo`, `Deleted`, `GetFirst`.
  - Each React component with state is a class with the component's state as fields. Its handlers and event listeners are methods. Each method's contract states the whole new state and what was asked of the outside world.
- **Outside inputs become parameters.** The clock, the store's and the upstream's answers, the audio element's readings, and the outcome of every awaited call are parameters. `getAccessToken`'s whole run is a function, `SoundCloud.AccessTokenRun`. The properties of a run are lemmas about that function. `TokenManager.GetAccessToken`, and every method that uses it, is proved to do exactly what that function says.
- **JavaScript semantics written out:**
  - `%` truncates toward zero (`TrackUtils.JsRem`, `AudioPlayer.JsRem60`).
  - `replace` with a string pattern replaces only the first occurrence.
  - `parseInt` skips leading whitespace, reads one sign and the leading digits, and gives NaN when there are none.
  - `Math.max` with a NaN argument is NaN, and every comparison with NaN is false.
  - `||` treats the empty string, 0 and NaN as absent.
- **Missing values.** A null or absent string field is modelled as the empty string, since the code only ever tests such fields for truthiness.

Some consequences of the code as written, stated and proved in the model:

- **NaN pages.** On the search page, a `page` that `parseInt` cannot read (`abc`) gives a NaN page, not page 1 (`SearchPage.PageOfNonNumeric`). The search then asks for `offset=NaN`. Given a NaN page, the `SearchPagination` component keeps its Previous button enabled, and that button removes `page` (`SearchPagination.PreviousFromNaN`). The search page itself renders a different pagination component, which is not part of this model.
- **Negative durations.** A negative duration is labelled with a negative remainder. `TrackUtils.JsRem` states the remainder for every dividend, and `-1000` ms shows `-1:-1` (`TrackUtils.FormatDurationNegative`).
- **Empty artwork.** The card's artwork URL is empty in exactly one case: the artwork failed to load, the avatar did not, and the user has no avatar (`TrackCard.ArtworkEmptyOnlyWhen`).
- **Stuck loading in the waveform player.** On first play, an empty stream URL or a missing waveform instance leaves `isLoading` on with nothing cached. The play button then stays disabled (`AudioPlayer.Player.HandlePlayPause`).
- **Autoplay.** The music player issues at most one autoplay per track it is given. `MusicPlayer.Player.Valid` holds this invariant and every method preserves it.

## Model

| member | source | states |
|---|---|---|
| SoundCloud.Issue | src/lib/soundcloud.ts:112-119 | The stored record keeps the whole grant. Its expiry is `expires_in - 60` seconds after the run's clock reading, which is also the TTL the store entry is given. A grant that outlives the 60-second margin expires after `now`, with a positive TTL. |
| SoundCloud.GrantRequest | src/lib/soundcloud.ts:93-122 | One credential request. Only on an ok answer, one write of the issued record under `soundcloud_token` with its TTL. It succeeds exactly when the answer is ok and the write succeeds. The record it returns is the one written. |
| SoundCloud.AccessTokenRun | src/lib/soundcloud.ts:21-47 | Every run of `getAccessToken` starts with one store read of `soundcloud_token`. |
| SoundCloud.Message | src/lib/soundcloud.ts:45 | The text of each error: the generic token failure, the refresh and grant rejections with status and status text, the search and stream failures, and store or transport messages as they came. |
| SoundCloud.FastPath | src/lib/soundcloud.ts:26-28 | An unexpired stored record is served with one store read, no credential request and no write. |
| SoundCloud.RefreshFirst | src/lib/soundcloud.ts:31-38 | An expired record with a refresh token is refreshed right after the read. A refresh that succeeds is served, its record is written, and no client-credentials grant is made. |
| SoundCloud.CredentialPrefix | src/lib/soundcloud.ts:40-42 | When the client-credentials grant is reached, it comes right after the read and any refresh attempt. No other client-credentials request comes before or after it. |
| SoundCloud.ClientCredentialsAtMostOnce | src/lib/soundcloud.ts:30-42 | A run makes at most one client-credentials request. It makes exactly one when the read succeeded and neither the stored record nor a refresh served the token. |
| SoundCloud.WrittenRecord | src/lib/soundcloud.ts:113-119 | The store is written only with a record issued from an ok answer whose write succeeded. |
| SoundCloud.StoreDiscipline | src/lib/soundcloud.ts:84-88 | Every attempted write uses `soundcloud_token`. Its record expires when the entry's TTL runs out, and the TTL is positive for grants that outlive the margin. |
| SoundCloud.Outcome | src/lib/soundcloud.ts:43-46 | A failed run writes nothing and fails with the one generic error. A served token is the unexpired stored one or the one just written. |
| SoundCloud.IssuedTokenServed | src/lib/soundcloud.ts:24-28 | A record written at `now` is served by any later run that reads it before it expires, with no credential request. That moment is after `now`. |
| SoundCloud.SearchQueryShape | src/lib/soundcloud.ts:132-138 | The search request carries exactly `q`, `limit`, `offset`, `access=playable` and `linked_partitioning=true`, once each, with the given values in decimal. |
| SoundCloud.SearchOutcome | src/lib/soundcloud.ts:147-156 | A non-ok answer fails with its status and text. An ok answer gives the collection in order (none when absent) and `next_href` as it came. |
| SoundCloud.TokenManager.RefreshToken | src/lib/soundcloud.ts:93-122 | The result, the calls made and the new store are exactly those of the refresh-grant request. |
| SoundCloud.TokenManager.GetNewToken | src/lib/soundcloud.ts:49-91 | The result, the calls made and the new store are exactly those of the client-credentials request. |
| SoundCloud.TokenManager.GetAccessToken | src/lib/soundcloud.ts:21-47 | The result, the calls made and the new store are exactly those of the specified run. |
| SoundCloud.TokenManager.SearchTracks | src/lib/soundcloud.ts:124-157 | A token failure propagates before any search request. Otherwise one search request is made with `OAuth <token>` and the five parameters, and its outcome is returned. |
| Actions.StreamPath | src/app/actions.ts:17 | The stream path is `/tracks/`, the track id, `/stream`. The id can be read back from it. |
| Actions.StreamOutcome | src/app/actions.ts:24-30 | A non-ok answer fails with its status and text. An ok answer gives the final URL. |
| Actions.GetStream | src/app/actions.ts:7-31 | A token failure propagates before any stream request. Otherwise exactly one stream request is made with the token, and its outcome is returned. |
| UrlSearchParams.GetFirstSpec | src/components/SearchForm.tsx:19 | `get` gives nothing exactly when no pair has the name. Otherwise it gives the value of the first pair that has it. |
| UrlSearchParams.DeletedSpec | src/components/search-pagination.tsx:24 | After `delete(name)` no pair has that name. Every other name has the same count and the same first value. |
| UrlSearchParams.DeletedIdempotent | src/components/search-pagination.tsx:24 | Deleting twice is deleting once. |
| UrlSearchParams.DeletedCommutes | src/components/search-inline-form.tsx:39-40 | Deleting `q` and `page` in either order gives the same parameters. |
| UrlSearchParams.ReplacedSpec | src/components/search-pagination.tsx:22 | Replacing a present name keeps one pair for it, holding the new value. Everything else is unchanged. |
| UrlSearchParams.SetToSpec | src/components/search-pagination.tsx:22 | After `set(name, value)` exactly one pair has the name and `get` reads the value. With that name removed, the list is as before, so other pairs keep their order. |
| UrlSearchParams.SetToInPlace | src/components/search-pagination.tsx:22 | `set` on a present name writes the value at the first pair with that name and drops the later ones; every other pair keeps its position. On an absent name it appends the pair. |
| UrlSearchParams.SetToIdempotent | src/components/search-pagination.tsx:22 | Setting the same value twice is setting it once. |
| UrlSearchParams.SetToThenDeleted | src/components/search-inline-form.tsx:33-34 | Deleting `page` after setting `q` leaves no `page` and exactly one `q` with its value. |
| UrlSearchParams.SearchParams.Get | src/components/SearchForm.tsx:19 | The loop finds the first value for the name, and finds one exactly when the name is present. |
| UrlSearchParams.SearchParams.Delete | src/components/search-pagination.tsx:24 | The loop leaves the list `Deleted` specifies. |
| UrlSearchParams.SearchParams.Set | src/components/search-pagination.tsx:22 | The loop leaves the list `SetTo` specifies. |
| JsString.Trim | src/app/search/page.tsx:101 | `trim` leaves no whitespace at either end. |
| JsString.TrimSpec | src/app/search/page.tsx:101 | `trim` keeps one stretch of its input and drops only whitespace on either side. |
| JsString.TrimBlank | src/components/SearchForm.tsx:28 | The trimmed text is empty exactly when the text is all whitespace. |
| JsString.TrimIgnoresPadding | src/components/search-inline-form.tsx:31-33 | Surrounding whitespace never changes the trimmed text. |
| JsString.TrimIdempotent | src/app/search/page.tsx:101 | Trimming twice is trimming once. |
| JsString.NatToStringRoundTrip | src/lib/track-utils.ts:18 | Reading a number's decimal form back gives the number. |
| JsString.ReplaceFirst | src/lib/track-utils.ts:12 | Without an occurrence the string is unchanged. Otherwise the first occurrence, and only it, is replaced. |
| JsNumber.Max | src/app/search/page.tsx:102 | `Math.max` is NaN when either argument is; otherwise the larger argument. |
| JsNumber.ParseInt | src/app/search/page.tsx:102 | `parseInt` is NaN exactly when no digit follows the leading whitespace and sign. |
| JsNumber.ParseIntOfDecimal | src/app/search/page.tsx:102 | A decimal integer followed by anything that is not a digit reads back as that integer. |
| JsNumber.ParseIntIgnoresLeadingWhitespace | src/app/search/page.tsx:102 | Leading whitespace does not change what `parseInt` reads. |
| JsNumber.ParseIntNaN | src/app/search/page.tsx:102 | Text that does not start with a digit, whitespace or sign reads as NaN. |
| SearchPage.QueryOfSpec | src/app/search/page.tsx:101 | The query is empty exactly when `q` is absent or blank. Surrounding whitespace does not change it, and it is already trimmed. |
| SearchPage.PageOf | src/app/search/page.tsx:102 | An absent or empty page is 1. A numeric page is at least 1. The page is NaN exactly when `parseInt` cannot read the given text. |
| SearchPage.PageOfDecimal | src/app/search/page.tsx:102 | A page given in decimal, possibly followed by other text, is that number clamped to 1 from below. |
| SearchPage.PageOfNonNumeric | src/app/search/page.tsx:102 | `abc` is a NaN page. |
| SearchPage.Offset | src/app/search/page.tsx:32-33 | The offset is NaN exactly when the page is. Page 1 starts at 0. |
| SearchPage.OffsetSpec | src/app/search/page.tsx:32-33 | Consecutive pages start 25 results apart. Page `p >= 1` starts at `(p - 1) * 25 >= 0`. |
| SearchPage.HasNextPage | src/app/search/page.tsx:39 | A next page exists exactly when `next_href` is present and not empty. |
| SearchPage.ResultsView | src/app/search/page.tsx:41-96 | The error panel shows exactly for a failure, with that error's message. "No tracks" shows exactly for an empty result. Otherwise the results show the tracks and whether a next page exists. |
| SearchPage.SearchResultsContent | src/app/search/page.tsx:31-97 | One search for the page's 25 results at the page's offset, with the view chosen from its outcome. The client's calls and store are exactly those of the run. |
| SearchPage.SearchPageView | src/app/search/page.tsx:99-133 | An empty query shows the prompt and makes no call. Otherwise it shows the results for the trimmed query and the parsed page. |
| SearchPagination.PageQuerySpec | src/components/search-pagination.tsx:19-27 | `page` is present, once and in decimal, exactly when the target is after page 1. Without `page`, the parameters are as before. |
| SearchPagination.PageQuery | src/components/search-pagination.tsx:20-25 | The new parameters: `set('page', p)` for a page after the first, `delete('page')` otherwise. `PageQuerySpec` states their properties. |
| SearchPagination.OtherParamsKept | src/components/search-pagination.tsx:20-25 | Every parameter other than `page`, `q` included, has the same count and value. |
| SearchPagination.PageQueryIdempotent | src/components/search-pagination.tsx:19-27 | Navigating to the same page twice gives the same parameters. |
| SearchPagination.NavigateRoundTrip | src/components/search-pagination.tsx:21-22 | The search page reads back the page navigated to, with pages up to 1 read as 1. |
| SearchPagination.NavigateToPage | src/components/search-pagination.tsx:19-27 | The pushed target is `/` with the parameters `PageQuery` specifies. |
| SearchPagination.PreviousTarget | src/components/search-pagination.tsx:34-35 | Previous leads nowhere exactly when the page is at most 1. |
| SearchPagination.NextTarget | src/components/search-pagination.tsx:41-42 | Next leads nowhere exactly when there is no next page. |
| SearchPagination.NeighbourPages | src/components/search-pagination.tsx:32-45 | From page `p`, Previous leads to a URL read as `p - 1` and Next to one read as `p + 1`. |
| SearchPagination.PreviousFromNaN | src/components/search-pagination.tsx:34-35 | On a NaN page Previous is enabled and removes `page`. |
| SearchForm.SyncedQuery | src/components/SearchForm.tsx:17-24 | The synced text is the local text or the URL's `q`. It is empty only when the local text was. |
| SearchForm.SyncedQuerySpec | src/components/SearchForm.tsx:17-24 | The URL's text is copied exactly when it is present and not empty. Syncing twice is syncing once. |
| SearchForm.SubmitTargetSpec | src/components/SearchForm.tsx:26-31 | Blank text navigates nowhere. Other text goes to `/search` with `q` the trimmed text, which the form syncs back. Padding does not change the target. |
| SearchForm.SubmitTarget | src/components/SearchForm.tsx:28-29 | Non-blank text goes to `/search` with `q` the trimmed text; blank text goes nowhere. `SubmitTargetSpec` states its properties. |
| SearchForm.SearchFormState.constructor | src/components/SearchForm.tsx:9-10 | The box starts empty and unmounted. |
| SearchForm.ShownText | src/components/SearchForm.tsx:39 | The box shows nothing before mounting, and exactly the local text after. The inline box shows its text the same way (`search-inline-form.tsx:59`). |
| SearchForm.SearchFormState.Mount | src/components/SearchForm.tsx:13-15 | Mounting runs the sync. |
| SearchForm.SearchFormState.UrlChanged | src/components/SearchForm.tsx:17-24 | A URL change syncs only once mounted. |
| SearchForm.SearchFormState.Edit | src/components/SearchForm.tsx:40 | Typing replaces the text and nothing else. |
| SearchForm.SearchFormState.HandleSubmit | src/components/SearchForm.tsx:26-31 | Submitting pushes the target, if any, and changes nothing else. |
| SearchInlineForm.ClearQuerySpec | src/components/search-inline-form.tsx:45-51 | Clearing leaves no `q` and no `page`. Every other parameter reads as before. |
| SearchInlineForm.SubmitQuerySpec | src/components/search-inline-form.tsx:29-43 | Submitting never leaves `page`. Non-blank text leaves exactly one `q`, the trimmed text, which the box syncs back. Blank text clears. Other parameters read as before. |
| SearchInlineForm.SubmitIgnoresPadding | src/components/search-inline-form.tsx:31-33 | Text that differs only in surrounding whitespace submits the same parameters. |
| SearchInlineForm.SubmitQuery | src/components/search-inline-form.tsx:31-42 | The parameters a submit navigates with: `q` set to the trimmed text and `page` deleted; for blank text, `q` and `page` deleted. `SubmitQuerySpec` states their properties. |
| SearchInlineForm.ClearQuery | src/components/search-inline-form.tsx:47-50 | The parameters clearing navigates with: `q` and `page` deleted. `ClearQuerySpec` states their properties. |
| SearchInlineForm.InlineFormState.constructor | src/components/search-inline-form.tsx:12-13 | The box starts empty and unmounted. |
| SearchInlineForm.InlineFormState.ClearShown | src/components/search-inline-form.tsx:64 | The clear button shows while the box holds text. Once mounted, that is exactly when the box shows some. |
| SearchInlineForm.InlineFormState.Mount | src/components/search-inline-form.tsx:16-18 | Mounting runs the sync. |
| SearchInlineForm.InlineFormState.UrlChanged | src/components/search-inline-form.tsx:20-27 | A URL change syncs only once mounted. |
| SearchInlineForm.InlineFormState.Edit | src/components/search-inline-form.tsx:60 | Typing replaces the text and nothing else. |
| SearchInlineForm.InlineFormState.HandleSubmit | src/components/search-inline-form.tsx:29-43 | Submitting pushes `/` with the parameters `SubmitQuery` specifies, edited through `set` and `delete`. |
| SearchInlineForm.InlineFormState.HandleClear | src/components/search-inline-form.tsx:45-51 | Clearing empties the box and pushes `/` without `q` and `page`. |
| TrackUtils.JsRem | src/lib/track-utils.ts:30 | The remainder is below the divisor in size and has the dividend's sign. The dividend minus the remainder is a multiple of the divisor, so the value is fixed for every dividend, negative ones included. |
| TrackUtils.FormatDuration | src/lib/track-utils.ts:27-32 | The label has at least four characters. `FormatDurationSpec` states its fields. |
| TrackUtils.FormatDurationSpec | src/lib/track-utils.ts:27-32 | For a non-negative duration, the label is the whole minutes, a colon, and two digits below 60. Reading both fields back gives the whole seconds. |
| TrackUtils.FormatDurationNegative | src/lib/track-utils.ts:27-32 | `-1000` ms is labelled `-1:-1`. |
| TrackUtils.ImageUrl | src/lib/track-utils.ts:10-15 | The image is never empty. Without artwork it is the avatar, else the placeholder. |
| TrackUtils.Selected | src/lib/track-utils.ts:17-24 | The record keeps the title, the uploader and the stream URL, has an image that is never empty, and gives the length in whole seconds. |
| TrackUtils.SelectedSpec | src/lib/track-utils.ts:17-24 | The record's id reads back as the track's id. Its duration is the track's whole seconds. Title, artist and URL are carried over. |
| TrackUtils.ConvertToSelectedTrack | src/lib/track-utils.ts:5-25 | The stream is resolved first and its failure propagates. Otherwise the record is built from the track and the stream URL. |
| TrackCard.AvatarUrl | src/components/TrackCard.tsx:49-51 | The avatar is never empty. It is the user's avatar when it loaded and is set, and the placeholder after a load error or without an avatar. |
| TrackCard.ArtworkFallback | src/components/TrackCard.tsx:39-47 | The fallback chain, case by case, including the first-occurrence `large` to `t300x300` rewrite. |
| TrackCard.ArtworkEmptyOnlyWhen | src/components/TrackCard.tsx:39-47 | The artwork is empty exactly when it failed, the avatar did not, and there is no avatar. |
| TrackCard.ArtworkUrl | src/components/TrackCard.tsx:39-47 | With no load error, the card shows the player record's image. After the artwork fails, it shows the avatar or the placeholder. The artwork tile runs the same code (`track-artwork.tsx:44-52`). |
| TrackCard.DurationLabelSpec | src/components/TrackCard.tsx:10-15 | The card's label shows whole minutes and two-digit seconds below 60 that make up the rest. |
| TrackCard.ShownDescription | src/components/TrackCard.tsx:111-115 | No description when empty. A long one is cut to its first 100 characters plus `...`. A short one is whole. |
| TrackCard.ShownDetails | src/components/TrackCard.tsx:95-145 | City, date and genre appear when present. The comment count appears only when positive. |
| TrackArtwork.AspectClass | src/components/track-artwork.tsx:66-69 | Square gives `aspect-square`. Portrait and an absent ratio give `aspect-[3/4]`. |
| TrackArtwork.Dimension | src/components/track-artwork.tsx:70-73 | `<n>px` for a truthy number, `auto` otherwise. `DimensionSpec` states its properties. |
| TrackArtwork.DimensionSpec | src/components/track-artwork.tsx:70-73 | A dimension is `auto` exactly when absent or 0. Otherwise it ends in `px` and reads back as the number. |
| TrackArtwork.ImageStyle | src/components/track-artwork.tsx:66-73 | The aspect class is square exactly when asked for. Each dimension is `auto` exactly when absent or 0, and otherwise reads back as its number. |
| MusicPlayer.DurationOf | src/contexts/music-player-context.tsx:103 | The duration is 0 exactly when the element's is NaN or 0. Otherwise it is the element's. |
| MusicPlayer.AutoPlaysSinceSource | src/contexts/music-player-context.tsx:110-122 | The number of autoplays given since the last track was set. |
| MusicPlayer.Player.Valid | src/contexts/music-player-context.tsx:38-41 | The autoplays given since the last track was set, plus a pending one, are at most one. A pending autoplay has a track. Every method that touches the flag or the element keeps this. |
| MusicPlayer.AutoPlaysAppend | src/contexts/music-player-context.tsx:110-122 | A new source restarts the autoplay count, an autoplay adds one, and other commands leave it. |
| MusicPlayer.Player.constructor | src/contexts/music-player-context.tsx:28-35 | No track, not playing, time 0, duration 0, volume 1, not loading, and no autoplay pending. |
| MusicPlayer.Player.SetCurrentTrack | src/contexts/music-player-context.tsx:40-50 | The new track, not playing, at 0 with duration 0, loading, and an autoplay pending. The volume is kept. The autoplay invariant is preserved. |
| MusicPlayer.Player.Play | src/contexts/music-player-context.tsx:52-62 | Asks the element to play when there is one. The state is unchanged: `isPlaying` is not set. |
| MusicPlayer.Player.PlayRejected | src/contexts/music-player-context.tsx:56-59 | A refused play sets not playing and nothing else. |
| MusicPlayer.Player.Pause | src/contexts/music-player-context.tsx:64-69 | With an element: pause it and set not playing. Without one: nothing. |
| MusicPlayer.Player.TogglePlayPause | src/contexts/music-player-context.tsx:71-77 | Pauses when playing, plays otherwise. |
| MusicPlayer.Player.SeekTo | src/contexts/music-player-context.tsx:79-84 | With an element: move it and change only the time. Without one: nothing. |
| MusicPlayer.Player.SetVolume | src/contexts/music-player-context.tsx:86-91 | With an element: set it and change only the volume. Without one: nothing. |
| MusicPlayer.Player.TimeUpdate | src/contexts/music-player-context.tsx:98-100 | Only the time changes, to the element's. |
| MusicPlayer.Player.DurationChange | src/contexts/music-player-context.tsx:102-104 | The duration becomes the element's, or 0, and loading ends. |
| MusicPlayer.Player.LoadStart | src/contexts/music-player-context.tsx:106-108 | Only loading is set. |
| MusicPlayer.Player.CanPlay | src/contexts/music-player-context.tsx:110-122 | Loading ends. A pending autoplay is issued once and cleared, so at most one autoplay follows each track set. |
| MusicPlayer.Player.Ended | src/contexts/music-player-context.tsx:124-126 | Not playing, back at time 0. |
| MusicPlayer.Player.Played | src/contexts/music-player-context.tsx:128-130 | The `play` event alone sets playing. |
| MusicPlayer.Player.Paused | src/contexts/music-player-context.tsx:132-134 | The `pause` event sets not playing. |
| MusicPlayer.Player.Error | src/contexts/music-player-context.tsx:136-140 | Neither loading nor playing, and the pending autoplay is dropped. |
| AudioPlayer.FileName | src/components/AudioPlayer.tsx:128 | The saved file is `track-`, the id, `.mp3`. The id can be read back from it. |
| AudioPlayer.JsRem60 | src/components/AudioPlayer.tsx:144 | The remainder lies in `[0, 60)` for a non-negative time and in `(-60, 0]` for a non-positive one. The time minus the remainder is a whole number of minutes. |
| AudioPlayer.FormatTime | src/components/AudioPlayer.tsx:142-146 | The clock has at least four characters. `FormatTimeFields` and `FormatTimeMatchesDuration` state its fields. |
| AudioPlayer.FormatTimeFields | src/components/AudioPlayer.tsx:142-146 | For a non-negative time, the minutes are its whole seconds divided by 60, and the seconds field is their remainder. |
| AudioPlayer.FormatTimeMatchesDuration | src/components/AudioPlayer.tsx:142-146 | The clock shows a non-negative time exactly as a card labels that many whole seconds. |
| AudioPlayer.Player.constructor | src/components/AudioPlayer.tsx:9-14 | Not loading, not playing, times 0, no cached URL, not downloading, no waveform instance. |
| AudioPlayer.Player.PlayPauseEnabled | src/components/AudioPlayer.tsx:154 | The play button is enabled exactly while not loading. |
| AudioPlayer.Player.DownloadEnabled | src/components/AudioPlayer.tsx:185 | The download button is enabled exactly while neither loading nor downloading. |
| AudioPlayer.Player.Valid | src/components/AudioPlayer.tsx:84-85 | A cached stream URL is never empty: both handlers cache only a non-empty URL (also lines 105-106), so the `!audioUrl` test means none is cached. `HandlePlayPause` and `HandleDownload` keep it. |
| AudioPlayer.Player.Mount | src/components/AudioPlayer.tsx:19-33 | The waveform instance exists afterwards and the state is unchanged. |
| AudioPlayer.Player.Unmount | src/components/AudioPlayer.tsx:70-75 | The waveform instance is gone and the state is unchanged. |
| AudioPlayer.Player.HandlePlayPause | src/components/AudioPlayer.tsx:78-97 | A cached URL only toggles. With none: one stream request, then one of three cases. A thrown request ends loading. An empty URL or no instance leaves loading on with nothing cached. A usable URL is cached and loaded, and loading lasts unless the load fails. |
| AudioPlayer.Player.HandleDownload | src/components/AudioPlayer.tsx:99-117 | A cached URL is downloaded with no request. Otherwise one stream request is made, and a usable URL is cached and downloaded. Loading is off afterwards either way. |
| AudioPlayer.Player.StartDownload | src/components/AudioPlayer.tsx:119-124 | Downloading is on and the file is fetched. |
| AudioPlayer.Player.FinishDownload | src/components/AudioPlayer.tsx:125-139 | The file is saved as `track-<id>.mp3` when fetched. Downloading is off either way. |
| AudioPlayer.Player.Ready | src/components/AudioPlayer.tsx:34-42 | With an instance: the duration is set, play is requested, and the player is playing and not loading. |
| AudioPlayer.Player.Played | src/components/AudioPlayer.tsx:44-46 | Playing. |
| AudioPlayer.Player.Paused | src/components/AudioPlayer.tsx:48-50 | Not playing. |
| AudioPlayer.Player.Finished | src/components/AudioPlayer.tsx:52-55 | Not playing, back at 0. |
| AudioPlayer.Player.Progress | src/components/AudioPlayer.tsx:57-67 | With an instance, only the time changes, to the instance's position. |

## Left out

- Network and store I/O are not modelled. This covers `fetch`, the Redis client and its configuration, and the environment variables. Answers and store outcomes are parameters. The store keeps a `map` with no TTL eviction; the TTL is recorded with each write.
- The `response.json()` parse failure is not modelled: an ok answer always carries a well-formed body.
- Logging, the base64 encoding of the client credentials and the request headers other than `Authorization` are not modelled.
- Percent-encoding, `encodeURIComponent` and the serialisation of a query to text are not modelled. A navigation target is a path with a list of name-value pairs.
- Strings are sequences of code points. The UTF-16 lengths behind `length` and `substring` in the description cut are not modelled.
- `formatNumber`, `formatDate` and all rendering, styling and DOM download mechanics are not modelled, nor is `src/components/music-player-bar.tsx`. Its `formatTime` duplicates the waveform player's.
- The search page hands the page to a `Pagination` component from `src/components/Pagination`, which is not part of this model. The pagination bar modelled is `src/components/search-pagination.tsx`.
- Asynchrony and interleaving are not modelled. Each handler, and each awaited step, runs to completion; its awaited outcomes are parameters. React's batching of state updates is not modelled.
- `downloadAudio` is not awaited by `handleDownload`. It is modelled as two steps, `StartDownload` and `FinishDownload`.
- The clock is read once per run. One `now` stands for each `Date.now()` in `getAccessToken`, `getNewToken` and `refreshToken`, and for the moment the store starts an entry's TTL. The code reads it again after each wait, so a stored expiry and the TTL end can differ by the time those waits take.
- Numbers are exact integers and reals, not IEEE doubles. Past 2^53 the program's `p + 1` equals `p`, and from 10^21 `toString` writes exponent form, which `parseInt` reads back as a single digit. So `SearchPagination.NeighbourPages`, `SearchPagination.NavigateRoundTrip`, `SearchPage.PageOfDecimal`, `JsNumber.ParseIntOfDecimal` and `TrackArtwork.DimensionSpec` hold for every integer in the model, but only for pages and sizes below 2^53 in the program. The players' times are exact reals in the same way.
- `SoundCloud.TokenManager.GetAccessToken` requires every ok grant to outlive the 60-second safety margin (`Sane`). The code sets no such bound, and a shorter grant would give a non-positive store TTL.
- `Actions.StreamOutcome` gives the final URL of an ok answer. A null `response.url` is not modelled.
- The music player's audio element is taken to exist exactly while a track is set, since it is rendered only then. The moment React attaches the ref is not modelled.
- `MusicPlayer.Player.SetCurrentTrack` records a new source even when the URL is unchanged. In that case the browser would not reload the file.
- Infinite and NaN times in the players are not modelled, apart from the NaN duration of the audio element. `formatTime` is related to `formatDuration` only for times that are not negative; the players never show negative times.
- The `play()` promise being undefined is not modelled; current browsers always return one. A refused autoplay is only logged, so it has no method of its own.
