# sonoscli decision core in Dafny

This project models four pieces of logic from sonoscli, a command-line controller for Sonos
speakers, and proves properties about them:

- **Presentation-map flattening** (`internal/sonos/smapi_pmap.go`). A music service's decoded
  presentation map is turned into one table. The table maps a search-category id, or a custom
  category's string id, to the service's `mappedId`.
- **The Spotify Web API client's decision logic** (`internal/spotify/client.go`):
  - search-type parsing;
  - query and limit normalisation and the search request's parameters;
  - per-type result and subtitle building;
  - the client-credentials token cache.
- **The `search spotify` command** (`internal/cli/search.go`): its chain of checks, the choice of
  credentials, the 1-based selection for `--open`/`--enqueue`, and the numbered listing.
- **The group `volume` and `mute` subcommands** (`internal/cli/group_audio.go`). They run against
  a group-audio client that holds volume and mute state.

Layout:

| File | Module | What it holds |
|---|---|---|
| `wrappers.dfy` | `Wrappers` | `Option` and `Result`, the model's counterpart of Go's `(value, error)` pairs. |
| `text.dfy` | `Text` | The parts of Go's `strings` and `strconv` the code relies on: `TrimSpace` with `unicode.IsSpace`'s exact space set, `ToLower`, `Join`, `Itoa`/`%d` and 64-bit `Atoi`, whose range error for a digit run that overflows `uint64` comes before the syntax error for a later non-digit. |
| `presentation_map.dfy` | `PresentationMap` | `parsePresentationMapXML` as a method with the source's two loops, proved equal to a fold `Flatten` over the candidate rows. Lemmas about `Flatten`. |
| `spotify_client.dfy` | `Spotify` | Pure rules (`ParseSearchType`, `NormalizeSearch`, `QueryParams`, the subtitles, `CheckTokenReply`, `EnsureTokenStep`, `SearchSpec`). Loop methods that build the results. The `Client` class, whose `token`, `tokenType` and `expiresAt` fields `EnsureToken` and `Search` update in place. |
| `search_command.dfy` | `SearchCommand` | The command's `RunE` as a pure function `Run` of its flags, arguments and a `World` of collaborator outcomes. The listing loop `ListingLines`. |
| `group_audio.dfy` | `GroupAudio` | The `Coordinator` class, a group-audio client whose methods update `volume` and `mute` and log every call. The seven subcommands as methods, each proved equal to one pure specification `Run`. |

Modelling conventions:

- Time is an integer number of seconds, passed in as `now`.
- The outcome of each HTTP exchange is a parameter: the decoded token reply or search body, or
  the failure that replaced it. The same holds for XML decoding (`Decoded`) and for the
  collaborators outside the modelled files: target validation, creating the group client,
  locating the coordinator, and enqueueing.
- `sonos.ParseSpotifyRef` is not part of this model. It enters as the predicate `isSpotifyRef`.
- A device call that fails leaves the device's state unchanged, but the call is still logged.

## Model

| member | source | states |
|---|---|---|
| `PresentationMap.ParsePresentationMap` | internal/sonos/smapi_pmap.go:53-80 | A decode failure is returned as an error with no table. A document without `SearchCategories` gives the empty table and no error. Otherwise the result is the table obtained by writing every usable category row, then every usable custom-category row, in input order. |
| `PresentationMap.CategoryFallback` | internal/sonos/smapi_pmap.go:63-70 | A category's value is its trimmed `mappedId` when that is non-empty, else its trimmed `mappedID`. It yields a row exactly when its trimmed id and one of these two values are non-empty. |
| `PresentationMap.TableComesFromInput` | internal/sonos/smapi_pmap.go:62-78 | Every key and value of the table is non-empty and already trimmed. Each pair is the trimmed row of some category (with the fallback) or custom category; nothing else appears. |
| `PresentationMap.SkippedIdsAreAbsent` | internal/sonos/smapi_pmap.go:62-78 | An id that no category or custom category provides with a non-empty value is not a key of the table. |
| `PresentationMap.CustomCategoryWins` | internal/sonos/smapi_pmap.go:72-78 | Custom categories are written after categories. A usable custom category that no later custom category overrides sets its key's value, whatever the categories say. |
| `PresentationMap.FlattenKeys` | internal/sonos/smapi_pmap.go:68-77 | A key is in the table if and only if some usable row has that id. |
| `PresentationMap.FlattenLastWins` | internal/sonos/smapi_pmap.go:62-78 | A key's value is the value of the last usable row with that id: later writes win. |
| `PresentationMap.FlattenOrigin` | internal/sonos/smapi_pmap.go:62-78 | Every (key, value) pair of the table is some usable input row. |
| `PresentationMap.TestEntries` | internal/sonos/smapi_pmap_test.go:9-11 | The test document's two categories and one custom category become, in document order, the entries `tracks→search:track`, `albums→search:album`, `Blogs→SBLG`. |
| `PresentationMap.TestDocument` | internal/sonos/smapi_pmap_test.go:9-27 | The test document (tracks, albums, Blogs) yields exactly the three mappings `tracks→search:track`, `albums→search:album`, `Blogs→SBLG`. |
| `Spotify.ParseSearchType` | internal/spotify/client.go:29-36 | Succeeds if and only if the trimmed, lower-cased input is one of track, album, playlist, show or episode, and then returns that normalised type. Otherwise the error carries the original input. |
| `Spotify.ParseSearchTypeName` | internal/spotify/client.go:20-36 | Every type's own name parses back to that type. |
| `Spotify.ParseSearchTypeExample` | internal/spotify/client.go:29-36 | `" Track\n"` parses as a track search; `"tracks"` is rejected. |
| `Spotify.NormalizeSearch` | internal/spotify/client.go:84-95 | A query that is blank after trimming is rejected, and only such a query. The limit used is always in 1..50: a limit of 0 or less becomes 10, a limit above 50 becomes 50, and others are kept. Query and market are trimmed. |
| `Spotify.QueryParams` | internal/spotify/client.go:105-113 | The request always carries `q` (the query), `type` (the type's name) and `limit`, and `limit` reads back with `Atoi` as the limit used. `market` is present if and only if it is non-empty. No other parameter is sent. |
| `Spotify.ArtistNameListMembers` | internal/spotify/client.go:160-165 | The artist list holds exactly the non-empty artist names. |
| `Spotify.TrackSubtitleCases` | internal/spotify/client.go:160-171 | A track subtitle is the non-empty artist names joined by ", ". When both exist, " — " and the album name are appended. With no artists it is the album name alone. It is empty only when there are neither artists nor an album name. |
| `Spotify.PlaylistSubtitleCases` | internal/spotify/client.go:243-250 | A playlist subtitle is the trimmed owner name. When the track total is positive it is "owner — N tracks", or "N tracks" when the owner is blank, and N reads back as the total. |
| `Spotify.ResultsFor` | internal/spotify/client.go:136-320 | Search returns one result per decoded item of the requested type, each with `Type` equal to that type. |
| `Spotify.ResultsCopyItems` | internal/spotify/client.go:172-178 | Result k copies the id, URI, web URL and name of item k of the requested type. |
| `Spotify.ArtistNames` | internal/spotify/client.go:160-165 | The artists loop keeps the non-empty names in order. |
| `Spotify.TrackResults` | internal/spotify/client.go:158-181 | The track loop produces, in order, the result of each item with the track subtitle. |
| `Spotify.AlbumResults` | internal/spotify/client.go:201-218 | The album loop produces, in order, the result of each item, with the artists joined by ", " as subtitle. |
| `Spotify.PlaylistResults` | internal/spotify/client.go:241-260 | The playlist loop produces, in order, the result of each item with the playlist subtitle. |
| `Spotify.ShowResults` | internal/spotify/client.go:278-289 | The show loop produces, in order, the result of each item, with the trimmed publisher as subtitle. |
| `Spotify.EpisodeResults` | internal/spotify/client.go:309-320 | The episode loop produces, in order, the result of each item, with the trimmed show name as subtitle. |
| `Spotify.CheckTokenReply` | internal/spotify/client.go:386-392 | A failed token request is passed on. An empty access token is an error. Otherwise the token and type are returned, with the lifetime defaulted to 3600 seconds when it is 0 or less, so it is always positive. |
| `Spotify.EnsureTokenStep` | internal/spotify/client.go:326-347 | The token endpoint is asked if and only if the cache is not reusable: no token, or 30 seconds or less left. On failure the cache is unchanged. On success a non-empty token is cached. |
| `Spotify.RefreshReplacesToken` | internal/spotify/client.go:334-345 | A refresh replaces the token and sets the expiry to now plus the (defaulted) lifetime. It replaces the token type only when the reply's trimmed type is not blank. |
| `Spotify.RefreshedTokenIsReused` | internal/spotify/client.go:328-331 | After a successful fetch, every call made while more than 30 seconds of the new lifetime remain reuses the token without a fetch. |
| `Spotify.SearchSpec` | internal/spotify/client.go:84-118 | A search sends a request only with a non-empty token. The request's `Authorization` is the token type, a space and the token. Its `type` and `q` are the type's name and the trimmed query. A successful answer has one result of the requested type per decoded item. |
| `Spotify.BlankQueryRejected` | internal/spotify/client.go:85-88 | A blank query is rejected before the token cache is consulted and before any request. |
| `Spotify.RequestLimitInRange` | internal/spotify/client.go:89-108 | Every search request carries a `limit` that reads back as a number in 1..50. |
| `Spotify.SearchSpecSent` | internal/spotify/client.go:84-133 | When the arguments pass and a token is in hand, Search sends the request with the normalised parameters and the cached Authorization, and answers with the body's results. |
| `Spotify.TwoSearchesFetchOnce` | internal/spotify/client_test.go:85-106 | The client test's scenario: a new client searches "hello world" for tracks with limit 2. It fetches one token and sends `Authorization: Bearer tok` with exactly the parameters q, type and limit. It gets one result with subtitle "Artist A — Album X". A second identical search reuses the token. |
| `Spotify.TestExpectationDiffers` | internal/spotify/client_test.go:95 | The subtitle the client builds for the test's item is not the string that line spells out (see Findings). |
| `Spotify.Client.constructor` | internal/spotify/client.go:61-73 | A new client has no token, token type "Bearer", and the zero expiry. |
| `Spotify.Client.EnsureToken` | internal/spotify/client.go:326-347 | Updates the fields exactly as `EnsureTokenStep` prescribes and returns its error. |
| `Spotify.Client.Search` | internal/spotify/client.go:84-322 | Leaves the token cache and returns the answer exactly as `SearchSpec` prescribes. |
| `SearchCommand.ChooseCredentials` | internal/cli/search.go:62-71 | When both `--client-id` and `--client-secret` are non-blank, their trimmed values are used. Otherwise the trimmed environment variables are used, and it is an error if either is blank. |
| `SearchCommand.EffectiveIndex` | internal/cli/search.go:52-54 | An `--index` of 0 or less counts as 1; a positive index is kept. |
| `SearchCommand.Run` | internal/cli/search.go:45-117 | An enqueue happens only after a search, with exactly one of `--open`/`--enqueue`, with PlayNow equal to `--open`, and for a reference the recogniser accepts. Any issued search has as its query the arguments joined by single spaces and trimmed. |
| `SearchCommand.Finish` | internal/cli/search.go:73-116 | An enqueued reference is the URI of result number index (1-based) of a successful search. |
| `SearchCommand.RunAfterPlan` | internal/cli/search.go:46-73 | When the flag checks, the type parsing and the credentials all pass, the command is the search followed by `Finish` on its answer. |
| `SearchCommand.BothActionsRejected` | internal/cli/search.go:46-48 | Requesting both `--open` and `--enqueue` is rejected before any other work: no search and no enqueue. |
| `SearchCommand.ActionNeedsTarget` | internal/cli/search.go:49-51 | `--open` or `--enqueue` without `--ip` or `--name` is rejected before any other work. |
| `SearchCommand.SearchIssuedIff` | internal/cli/search.go:46-73 | The search is issued if and only if the two flag checks, the type parsing and the credentials pass. It uses the chosen credentials, the joined and trimmed query, the parsed type, the limit and the market. |
| `SearchCommand.EmptyResultsRejected` | internal/cli/search.go:77-79 | Once the search has answered, an empty result list is the error "no results", and nothing is enqueued. |
| `SearchCommand.Selection` | internal/cli/search.go:81-102 | Once the search has answered with a non-empty list, and with `--open`/`--enqueue`: an index past the end is an out-of-range error that carries the index and the count, and nothing is enqueued. Otherwise result index-1 is selected. A coordinator failure or a rejected reference is an error with nothing enqueued. An accepted reference is enqueued with PlayNow = `--open`. |
| `SearchCommand.DefaultIndexSelectsFirst` | internal/cli/search.go:52-85 | Once the search has answered, with an index of 0 or less, any enqueue uses the first result. |
| `SearchCommand.PlainSearchPrints` | internal/cli/search.go:105-116 | Once the search has answered, and without `--open`/`--enqueue`, a non-empty result list is printed (as JSON or as the listing) and nothing is enqueued. |
| `SearchCommand.ListingLines` | internal/cli/search.go:111-115 | The print loop produces the header followed by one row per result, in order. |
| `SearchCommand.ListingNumbersRows` | internal/cli/search.go:113-115 | Row k starts with a cell that reads back as k+1, then a tab and the result's type, title, details and URI. |
| `GroupAudio.ParseMuteWord` | internal/cli/group_audio.go:176-185 | on, true and 1 mean mute; off, false and 0 mean unmute; every other word is rejected. |
| `GroupAudio.Run` | internal/cli/group_audio.go:31-191 | A subcommand only appends to the device's call log, at most two calls. It succeeds only when target validation and client creation succeed. |
| `GroupAudio.TargetCheckedFirst` | internal/cli/group_audio.go:36-38 | When the target is invalid, every subcommand fails with that error, makes no call and changes nothing. |
| `GroupAudio.NoClientNoCalls` | internal/cli/group_audio.go:39-42 | When the client cannot be created, no call is made and nothing changes. |
| `GroupAudio.VolumeSetPassesValue` | internal/cli/group_audio.go:63-74 | `volume set` rejects a non-integer argument before creating a client, with no call. Otherwise it makes one SetGroupVolume call with the parsed integer unchanged. |
| `GroupAudio.VolumeSetDecimal` | internal/cli/group_audio.go:66-74 | The decimal spelling of any 64-bit integer sets exactly that volume. |
| `GroupAudio.VolumeSetOverflow` | internal/cli/group_audio.go:66-69 | `volume set 99999999999999999999x` fails with Atoi's range error before the client is created, and no call is made. |
| `GroupAudio.GetsOnlyRead` | internal/cli/group_audio.go:43-52 | `volume get` and `mute get` make one get call, leave volume and mute unchanged, and report the current value. |
| `GroupAudio.MuteOnOff` | internal/cli/group_audio.go:114-143 | `mute on` sets mute to true and `mute off` sets it to false; the volume is unchanged. |
| `GroupAudio.ToggleNegates` | internal/cli/group_audio.go:146-163 | `mute toggle` reads the mute state and writes its negation. If the read fails, no set is issued and nothing changes. |
| `GroupAudio.ToggleTwiceRestores` | internal/cli/group_audio.go:158-162 | Toggling twice restores the mute state and leaves the volume unchanged. |
| `GroupAudio.MuteSetAsOnOff` | internal/cli/group_audio.go:166-191 | Hidden `mute set` rejects an unknown word before creating a client. A known word does exactly what `mute on` or `mute off` does. |
| `GroupAudio.NothingElseChanges` | internal/cli/group_audio.go:31-191 | Volume subcommands never change the mute state, and mute subcommands never change the volume. |
| `GroupAudio.Coordinator.GetGroupVolume` | internal/cli/group_audio.go:14 | Logs the call, changes no state, and returns the volume or the fault. |
| `GroupAudio.Coordinator.SetGroupVolume` | internal/cli/group_audio.go:15 | Logs the call and, unless it fails, sets the volume; the mute state is untouched. |
| `GroupAudio.Coordinator.GetGroupMute` | internal/cli/group_audio.go:16 | Logs the call, changes no state, and returns the mute state or the fault. |
| `GroupAudio.Coordinator.SetGroupMute` | internal/cli/group_audio.go:17 | Logs the call and, unless it fails, sets the mute state; the volume is untouched. |
| `GroupAudio.RunVolumeGet` | internal/cli/group_audio.go:35-53 | The `volume get` steps leave the coordinator and return the answer exactly as `Run(VolumeGet)` prescribes. |
| `GroupAudio.RunVolumeSet` | internal/cli/group_audio.go:62-75 | The `volume set` steps, with the argument parsed before the client, agree with `Run(VolumeSet(arg))`. |
| `GroupAudio.RunMuteGet` | internal/cli/group_audio.go:92-110 | The `mute get` steps agree with `Run(MuteGet)`. |
| `GroupAudio.RunMuteOnOff` | internal/cli/group_audio.go:118-142 | The `mute on`/`mute off` steps agree with `Run(MuteOn)` and `Run(MuteOff)`. |
| `GroupAudio.RunMuteToggle` | internal/cli/group_audio.go:150-163 | The `mute toggle` steps agree with `Run(MuteToggle)`. |
| `GroupAudio.RunMuteSet` | internal/cli/group_audio.go:172-191 | The hidden `mute set` steps, with the word parsed before the client, agree with `Run(MuteSet(word))`. |
| `Text.TrimSpaceBlank` | internal/spotify/client.go:85-88 | `strings.TrimSpace` yields the empty string exactly when every character is a Unicode space. |
| `Text.TrimSpaceCuts` | internal/sonos/smapi_pmap.go:63-66 | `strings.TrimSpace` returns a contiguous middle part of its input. That part neither starts nor ends with a space, and everything cut off is space. |
| `Text.Atoi` | internal/cli/group_audio.go:66-69 | `strconv.Atoi` succeeds exactly when the part after an optional sign is a non-empty run of digits whose signed value fits the 64-bit `int`. The result is that value. If the digits before the first non-digit already exceed 2^64-1, the answer is a range error. Otherwise an empty or non-numeric digit part is a syntax error. |
| `Text.AtoiOverflowBeforeSyntax` | internal/cli/group_audio.go:66-69 | Twenty nines followed by `x` is a range error, not a syntax error. The accumulator overflows before the `x` is read. |
| `Text.ToLower` | internal/spotify/client.go:30-32 | `strings.ToLower` keeps the length and maps each character on its own. ASCII capitals become small letters. KELVIN SIGN becomes `k` and LATIN CAPITAL LETTER I WITH DOT ABOVE becomes `i`. Every other character is kept. |
| `Text.JoinBlankIff` | internal/cli/search.go:56 | `strings.Join` of non-empty parts is empty exactly when there are no parts. |
| `Text.AtoiFormatInt` | internal/spotify/client.go:108 | Reading back what `strconv.Itoa` printed gives the same number, for every 64-bit integer. |

## Left out

- Network I/O is not modelled: `fetchAndParsePresentationMap`, URL building and encoding, the
  HTTP requests, status checks and body reads of `Search` and `fetchClientCredentialsToken`.
  Their outcomes are parameters.
- The token request's form body and Basic authorization header are not modelled, for the same
  reason.
- XML and JSON decoding are library code. The model starts from the decoded records, with a
  malformed document or body as a failure value.
- `NewFromEnv` is not modelled as an environment read. The two variables enter as `Env`, and the
  check it makes is part of `SearchCommand.ChooseCredentials`.
- The client's mutex is not modelled; `ensureToken` runs sequentially. Two concurrent callers
  could both fetch a token, and that is not captured.
- Wall-clock time is integer seconds. `time.Until`'s nanosecond resolution is not modelled.
  `ensureToken` reads the clock twice, with `time.Until` before the fetch (client.go:328) and
  `time.Now` after it (client.go:345). `EnsureTokenStep` uses one `now` for both, so the fetch
  takes no time.
- Strings are sequences of Unicode scalar values. A Go string holding invalid UTF-8 has no
  counterpart in the model.
- Spotify.EnsureTokenStep: does not model Go's `time.Duration` overflow. A reply lifetime
  above about 9.2e9 seconds overflows there and is not reproduced.
- Spotify.Client.Search: the search type is an enumeration, so Go's "unsupported type" branch
  cannot be reached and is not modelled. In Go it is reached only after the request has been sent.
- Text.ToLower: lower-cases ASCII letters plus the two non-ASCII letters whose lower case is
  ASCII (KELVIN SIGN and LATIN CAPITAL LETTER I WITH DOT ABOVE). Other letters are left
  unchanged, which does not alter any `ParseSearchType` decision.
- Output formatting is not modelled: JSON encoding, the tabwriter's column alignment and stdout
  writes. The listing is modelled as its tab-separated lines, and JSON output as the results it
  encodes.
- Cobra's argument-count checks (`MinimumNArgs(1)`, `ExactArgs(1)`) run before the commands and
  are not modelled. An empty argument list reaches `Search` as a blank query and is rejected there.
- `validateTarget`, `coordinatorClient` (and `newGroupAudioClient`), `sonos.ParseSpotifyRef` and
  `EnqueueSpotify` are not part of this model. Their outcomes are parameters, and the reference
  recogniser is a predicate.
- The group-audio client's own behaviour is not in the shown code. The model assumes a device
  that reports its state and keeps it when a set call fails.
- GroupAudio.RunVolumeSet: does not check the 0-100 range, and neither does the source. The
  value goes to the device unchanged.
- Components known only from tests are not modelled: discovery, DIDL parsing, favourites,
  music-service descriptors, the SMAPI token store, logging, watch and the name-completion cache.
  There is no implementation of them to model.

## Findings

| source | as written | input that shows it | evidently intended | confidence | as-written member | corrected member |
|---|---|---|---|---|---|---|
| internal/spotify/client_test.go:95 | The expected subtitle separator is the three characters U+00E2 U+20AC U+201D, which is the em dash's UTF-8 bytes read as Windows-1252. The client (client.go:168) joins with " — " (U+2014). | The test's own search response: one track "Song 1" by "Artist A" on "Album X". | "Artist A — Album X", with U+2014 as in the client. | medium, not executed: rests on the bytes at client_test.go:95 (C3 A2 E2 82 AC E2 80 9D) as committed | `Spotify.TestExpectationDiffers` | `Spotify.TwoSearchesFetchOnce` |
