# Spotify playlist generator: a Dafny model of its decision logic

The system is a daily batch job. It reads yesterday's posts from a handful
of VK music groups and filters them by genre. It turns their audio
attachments into track records and looks each track up in Spotify search.
It then adds the URIs it found to a playlist and reports, per VK post, the
tracks it could not find.

This project models the decision logic of that job. It leaves the network
and the clock outside. Two generations of the code are modelled side by
side:

- the current controllers, `core/vk_api_controller.py` and
  `core/spotify_api_controller.py`, with the `Track` record of
  `model/track.py`;
- the earlier controllers, `vk_api_controller.py` and
  `spotify_api_controller.py`, with the record of `model.py`.

Modules:

| file | module | models |
|---|---|---|
| `wrappers.dfy` | `Wrappers` | `Option` and `Result` |
| `pystr.dfy` | `PyStr` | Python's `str.split(sep)` for a one-character separator, `str.replace(c, '')`, the substring `in` test, and decimal rendering of an `int` in an f-string |
| `seqs.dfy` | `Seqs` | duplicate-free lists and first-occurrence deduplication |
| `track.dfy` | `TrackModel` | `Track` and its three derived strings |
| `vk_posts.dfy` | `VkPosts` | the `wall.get` answer, `_compose_full_name`, `_check_date` and `_get_yesterday_posts`, shared by both VK controllers |
| `vk_ingest.dfy` | `VkIngest` | the current VK controller: group policies, `_check_genres`, `_process_post` and `process_groups` |
| `catalog.dfy` | `Catalog` | the current Spotify controller: `get_track_uri`, the retry, `add_tracks_to_playlist` and its not-found report |
| `vk_legacy.dfy` | `VkLegacy` | the earlier VK controller |
| `catalog_legacy.dfy` | `CatalogLegacy` | the earlier Spotify controller |

Everything the job asks of the outside world is a parameter:

- `fetch(domain)` is the `wall.get` answer for a group. It carries the HTTP
  status and the posts.
- `today` is today's local calendar day. Each post carries its own day.
- `composeArtist` stands for `Track.compose_artist_name`.
- `Service.search(query)` is a search response with its status.
- `Service.addStatus(playlistId, uri)` is the status of the add request.
- `Service.similar(a, b)` stands for `SequenceMatcher(None, a, b).ratio() > 0.95`.

Every Python exception on these paths is a `Failure` value inside a
`Result` or an `Aborted` outcome:

- a failed status `assert`;
- a `KeyError`;
- the error `response.json()` raises on a 204 search answer, which has no body;
- an `IndexError`;
- an `AttributeError`;
- the `TypeError` of `set(...)`.

Each loop of the source is a Dafny `while` loop in a method. The method is
proved equal to a specification function that folds over the input from the
left. The lemmas state the source's promises about those functions.

## Model

| member | source | states |
|---|---|---|
| TrackModel.ComposedFullNameShape | model/track.py:12-15 | the primary query is the artist, exactly one space, then the name; its length is `|artist| + 1 + |name|` |
| TrackModel.ComposedAlternativeFullNameShape | model/track.py:17-20 | the retry query is the artist, exactly one space, then the raw title |
| TrackModel.NotFoundNameShape | model/track.py:22-25 | the report label is the artist, `" - "`, then the name; its length is `|artist| + 3 + |name|` |
| TrackModel.NotFoundNameIgnoresAlternative | model/track.py:22-25 | the label does not depend on the raw title or the post URL |
| TrackModel.QueriesAgreeOnSameName | model/track.py:12-20 | when the name equals the raw title, both queries are the same string |
| TrackModel.NameRecoverable | model/track.py:12-25 | for one artist, equal queries or equal labels imply equal names |
| PyStr.Split | core/vk_api_controller.py:153 | `str.split` yields at least one piece, and no piece holds the separator |
| PyStr.JoinOfSplit | core/vk_api_controller.py:159 | joining the pieces of a split with the separator gives back the string |
| PyStr.SplitOfJoin | core/vk_api_controller.py:159 | splitting a join of separator-free pieces gives back the pieces |
| PyStr.SplitLength | core/vk_api_controller.py:153 | a split has one piece more than the separator has occurrences |
| PyStr.RemoveAllShape | core/vk_api_controller.py:159 | `replace('#', '')` leaves no `#`, shortens by the count of `#`, and keeps exactly the other characters of the input |
| PyStr.RemoveAllCons | core/vk_api_controller.py:159 | `replace('#', '')` drops a leading `#` and keeps any other leading character in front of the rest |
| PyStr.RemoveAllAppend | core/vk_api_controller.py:159 | `replace('#', '')` distributes over concatenation; with `RemoveAllCons` this fixes the result, so the kept characters stay in order and keep their multiplicity |
| PyStr.RemoveAllAbsent | core/vk_api_controller.py:159 | a string without `#` is left unchanged |
| PyStr.ContainsIffOccurs | vk_api_controller.py:82 | the substring test holds iff the pattern starts at some position of the string |
| PyStr.Decimal | core/vk_api_controller.py:117 | an integer renders as a non-empty string of digits |
| PyStr.ParseDecimalOfDecimal | core/vk_api_controller.py:117 | reading the digits back gives the integer |
| PyStr.DecimalInjective | core/vk_api_controller.py:117 | different integers render differently |
| Seqs.Dedup | vk_api_controller.py:131-132 | the result has no repeats and the same elements as the input |
| Seqs.DedupOfNoDup | core/spotify_api_controller.py:97-99 | deduplicating a list without repeats leaves it as it is |
| VkPosts.ComposeFullNameShape | core/vk_api_controller.py:58-64 | the title, followed by a space and the subtitle iff the subtitle is present and non-empty |
| VkPosts.AudiosSelectsAudio | core/vk_api_controller.py:106-113 | the audio objects are exactly those of the `audio`-typed attachments, and there are no more of them than attachments |
| VkPosts.AudiosAppend | core/vk_api_controller.py:113 | selecting audio commutes with concatenation, so attachment order is kept |
| VkPosts.YesterdayPosts | core/vk_api_controller.py:66-70 | the posts kept are exactly those whose day is the day before today |
| VkPosts.YesterdayPostsAppend | core/vk_api_controller.py:69 | the filter keeps feed order: filtering `a + b` is filtering `a`, then `b` |
| VkPosts.YesterdayPostsOf | core/vk_api_controller.py:52-70 | the request fails iff the status is not 200; otherwise yesterday's posts are returned |
| VkIngest.CheckGenres | core/vk_api_controller.py:127-131 | true iff some token equals one of house, funk, disco, soul |
| VkIngest.RadiantSoundAdmit | core/vk_api_controller.py:150-155 | a post without text is skipped; text without a line break raises; otherwise the `/`-separated genres of the second line decide |
| VkIngest.SoundfieldsAdmit | core/vk_api_controller.py:157-161 | missing text raises; `#somegoods` and `#qweektunes` pass; any other text is decided without error, by the genre check on the space-separated words of its last line with every `#` removed |
| VkIngest.LastLineGenreAdmits | core/vk_api_controller.py:157-161 | a text whose last line is two hashtags, the second a desired genre (as in "header\n#deep #house"), is admitted |
| VkIngest.SecondLineGenreAdmits | core/vk_api_controller.py:153-154 | a second line that starts with a desired genre before a `/` admits the post |
| VkIngest.PostUrlInjective | core/vk_api_controller.py:117 | within one group, different post ids give different post URLs |
| VkIngest.ProcessPost | core/vk_api_controller.py:97-125 | the loop returns the tracks and the playlist marker of the per-post specification |
| VkIngest.PostTracksShape | core/vk_api_controller.py:97-125 | one track per audio attachment of the chosen post, in order, with composed artist, composed name, raw title and post URL; the playlist marker is set iff attachments exist but none is audio, and is then the post URL |
| VkIngest.RepostShadowsAttachments | core/vk_api_controller.py:101-108 | with a non-empty `copy_history`, the outer post's attachments change nothing |
| VkIngest.ProcessPostAsWrittenFails | core/vk_api_controller.py:119-124 | as written, `_process_post` raises exactly on posts that hold tracks, and agrees with `ProcessPost` elsewhere |
| VkIngest.GetYesterdayPosts | core/vk_api_controller.py:66-70 | every post returned was published yesterday |
| VkIngest.HarvestPost | core/vk_api_controller.py:148-167 | one iteration of the inner loop equals the per-post specification |
| VkIngest.ProcessGroups | core/vk_api_controller.py:144-169 | the nested loops compute the fold over groups in enum order, then posts in feed order, stopping at the first exception |
| VkIngest.PostAborts | core/vk_api_controller.py:148-167 | once a post raises, later posts do not change the outcome |
| VkIngest.IngestPostsAppend | core/vk_api_controller.py:148-167 | harvesting `a + b` is harvesting `a`, then `b`, concatenated |
| VkIngest.IngestGroupsAppend | core/vk_api_controller.py:146-167 | harvesting groups `a + b` is harvesting `a`, then `b`, concatenated |
| VkIngest.HarvestCounts | core/vk_api_controller.py:163-167 | a group's track count is the number of audio attachments of its admitted posts; its URL count is the number of admitted playlist posts |
| VkIngest.IngestFailsIff | core/vk_api_controller.py:148-161 | harvesting a group fails iff some post breaks its genre rule |
| VkIngest.UnfilteredNeverFails | core/vk_api_controller.py:148-163 | groups without a genre rule never fail once their posts are fetched |
| VkIngest.TrackProvenance | core/vk_api_controller.py:148-164 | every harvested track carries the URL of an admitted post of its group |
| VkIngest.PlaylistUrlProvenance | core/vk_api_controller.py:163-167 | every playlist URL is that of an admitted post with attachments but no audio |
| VkIngest.GroupHarvestFromYesterday | core/vk_api_controller.py:146-164 | every track of a group comes from a post of yesterday in that group's feed that its rule admits |
| Catalog.FirstSimilarIsFirstMatch | core/spotify_api_controller.py:60-63 | `None` iff no hit is similar; otherwise the URI of the first similar hit in search order |
| Catalog.GetTrackUri | core/spotify_api_controller.py:37-63 | the search fails iff the status is not 200 or 201: the `assert` refuses any status but 200, 201 and 204, and a 204 has no body for `response.json()`; no hits give `None` |
| Catalog.Resolve | core/spotify_api_controller.py:86-89 | a URI found is never empty |
| Catalog.ResolveTrack | core/spotify_api_controller.py:86-89 | the primary query always goes first; the alternative query against the raw title is issued iff the primary one succeeds and finds nothing |
| Catalog.Record | core/spotify_api_controller.py:90-96 | a new post URL is appended to the keys with a one-label list; a known one gets the label appended; other keys are unchanged |
| Catalog.Assemble | core/spotify_api_controller.py:83-100 | the report's keys stay distinct and are exactly the dict's keys |
| Catalog.AddTrackToPlaylist | core/spotify_api_controller.py:65-75 | the add fails iff its status is not 200 or 201 |
| Catalog.AddTracksToPlaylist | core/spotify_api_controller.py:77-100 | the loop computes the left fold over the tracks and stops at the first exception |
| Catalog.AbortSticks | core/spotify_api_controller.py:85-99 | once a search or an add fails, no later track is processed |
| Catalog.AbortedPrefix | core/spotify_api_controller.py:85-99 | an aborted run on `a` is also the run on `a + b` |
| Catalog.AddsAtMostOnce | core/spotify_api_controller.py:97-99 | no URI is ever sent to the add request twice; the requests are `added_tracks_uris`, plus the URI of a final add that failed |
| Catalog.AddedIsDeduplicated | core/spotify_api_controller.py:97-99 | the `not in` test keeps a finished run's `added_tracks_uris` free of repeats, so deduplicating it changes nothing |
| Catalog.AddedInFirstResolutionOrder | core/spotify_api_controller.py:97-99 | a finished run's `added_tracks_uris` are the resolved URIs deduplicated in first-resolution order |
| Catalog.NotFoundReport | core/spotify_api_controller.py:90-96 | the report's keys are the unresolved tracks' post URLs in first-encounter order; each key lists its tracks' labels in input order |
| Catalog.RecordCounts | core/spotify_api_controller.py:92-95 | recording a label adds exactly one entry to the report |
| Catalog.NotFoundTotal | core/spotify_api_controller.py:90-96 | the report holds exactly one label per unresolved track |
| Catalog.SameUriAddedOnce | core/spotify_api_controller.py:85-99 | tracks that all resolve to one URI cause one add request and an empty report |
| Catalog.AssembleAsWrittenAddsNothing | core/spotify_api_controller.py:86-91 | as written, any non-empty track list aborts before any search or add |
| VkLegacy.ProcessPost | vk_api_controller.py:67-76 | the loop returns the per-post specification; it raises iff the `attachments` key is missing |
| VkLegacy.PostTracksShape | vk_api_controller.py:67-76 | a post with attachments yields one track per audio attachment, in order, with the raw artist, the composed full name, the raw title as alternative and no URL |
| VkLegacy.CheckOnGenresCondition | vk_api_controller.py:78-84 | true iff some desired genre is a substring of some token |
| VkLegacy.ExactMatchImpliesSubstring | vk_api_controller.py:78-84 | whatever the current exact check admits, the substring check admits too |
| VkLegacy.SubstringLooserThanExact | vk_api_controller.py:82 | the token "funky" passes the substring check and fails the exact one |
| VkLegacy.AdmitPost | vk_api_controller.py:86-114 | Soundfields tests its last line and Radiant Sound its second; missing text or a one-line text raises; the other groups admit every post |
| VkLegacy.EmptyTextRaises | vk_api_controller.py:110 | an empty text raises IndexError in Radiant Sound, where the current controller skips the post |
| VkLegacy.HarvestPost | vk_api_controller.py:90-94 | one loop iteration equals the per-post specification |
| VkLegacy.CollectAborts | vk_api_controller.py:86-122 | once a post raises, later posts are not looked at |
| VkLegacy.ProcessGroup | vk_api_controller.py:86-122 | each per-group method computes the fold over that group's yesterday posts |
| VkLegacy.CollectTracksAppend | vk_api_controller.py:86-122 | collecting from posts `a + b` is collecting from `a`, then from `b`, concatenated: the tracks follow post order |
| VkLegacy.UnfilteredPost | vk_api_controller.py:97-122 | under GLBDOM and JAZZVE a post raises iff it lacks `attachments`, and otherwise yields the tracks of its audio attachments |
| VkLegacy.UnfilteredKeepsEveryAudio | vk_api_controller.py:97-122 | GLBDOM and JAZZVE fail iff some post lacks `attachments`; otherwise they yield the tracks of every audio attachment of every post, in post and attachment order, one per audio attachment |
| VkLegacy.ProcessGroups | vk_api_controller.py:124-133 | only Radiant Sound is collected, then passed through `set` |
| VkLegacy.ProcessGroupsNeverYieldsTracks | vk_api_controller.py:124-133 | as written the result is `[]` or an exception; TypeError iff Radiant Sound yields tracks; other groups' feeds are never read |
| VkLegacy.DistinctRadiantTracks | vk_api_controller.py:131-132 | the intended deduplication has no repeats and keeps every Radiant Sound track |
| CatalogLegacy.GetTrackUri | spotify_api_controller.py:51-73 | the request fails iff the status is not 200 or 201 (a 204 passes the `assert` but has no body for `response.json()`); `None` iff there are no hits |
| CatalogLegacy.FirstHitIsFirstSimilarWithoutThreshold | spotify_api_controller.py:72-73 | taking `items[0]` is the current first-similar selection under a test that every hit passes |
| CatalogLegacy.RetryRepeatsFirstQuery | spotify_api_controller.py:90-92 | the retry repeats `full_name`, so the outcome is always that of the first search |
| CatalogLegacy.ResolveTrack | spotify_api_controller.py:90-92 | a second search is issued iff the first finds nothing and the raw title is truthy; every search uses `full_name` |
| CatalogLegacy.AddTrackToPlaylist | spotify_api_controller.py:75-85 | the add fails iff its status is not 200 or 201 |
| CatalogLegacy.AddTracksToPlaylist | spotify_api_controller.py:87-95 | the loop computes the left fold over the tracks and stops at the first exception |
| CatalogLegacy.AbortSticks | spotify_api_controller.py:89-95 | once a search or an add fails, no later track is processed |
| CatalogLegacy.AddsEveryResolvedTrack | spotify_api_controller.py:89-95 | a finished run adds one URI per resolved track, in track order, with repeats; unresolved tracks leave no trace |
| CatalogLegacy.DuplicateAdded | spotify_api_controller.py:89-95 | the same track twice is added twice |

## Left out

- HTTP transport is not modelled: `_request_posts`, `_get_group_id`, `_get_post_url`, `create_playlist`, `get_length_of_playlist` and the request inside `add_track_to_playlist`. A request is its status and parsed answer, supplied as a parameter.
- The clock and the local time zone are not modelled. A post's `date` becomes its local calendar day, and `today` is a parameter.
- `SequenceMatcher(...).ratio() > 0.95` is a floating-point heuristic. It is the parameter `similar`, with no property required of it.
- `Track.compose_artist_name` is not an attribute of the `Track` class the current VK controller imports (model/track.py:4-25). It is the parameter `composeArtist`, with no "featuring" rewrite or other meaning.
- Search and the add status are functions of their arguments. So in the model, repeating a query always gives the same answer, which `CatalogLegacy.RetryRepeatsFirstQuery` relies on.
- Only the data shapes the code branches on are modelled. An `audio`-typed attachment always carries its audio object, an audio object always has `artist` and `title`, and a hit always has `name` and `uri`. The `KeyError`s those keys could raise are not modelled. Keys the code reads with `.get` or tests for emptiness are optional.
- Post ids and group ids are natural numbers. The URL renders them in decimal without a sign.
- `PyStr.Split` models `str.split` for a one-character separator only. Every separator in the code is one character.
- `VkLegacy.ProcessGroup` models the four `_process_*` methods as one method over the group. They differ only in the domain and the genre test.
- `VkLegacy.DistinctRadiantTracks` keeps first occurrences in order, while `list(set(...))` on hashable tracks would return them in an unspecified order.
- The `Groups` and `GroupsIDs` enums are a datatype with a domain function and an id function. Nothing else about them is modelled.
- `main.py`, `utils/utils.py` and `utils.py` are not part of this model. They read credentials, format the date and print.
- The current genre check is exact membership via set intersection (core/vk_api_controller.py:129), while the earlier controller tests substring containment (vk_api_controller.py:82); each is modelled as written. No artist rewriting is modelled, because `compose_artist_name` is undefined.

## Findings

| source | as written | input that shows it | evidently intended | confidence | as-written member | corrected member |
|---|---|---|---|---|---|---|
| core/vk_api_controller.py:120-121 | calls `Track.compose_artist_name` and `Track.compose_full_name`, which `Track` does not define, so `_process_post` raises AttributeError | any admitted post with one `audio` attachment | the controller's own `_compose_full_name` for the name and an artist-composition function for the artist | high (not executed) | VkIngest.ProcessPostAsWrittenFails | VkIngest.ProcessPost |
| core/spotify_api_controller.py:86-91 | calls `track.get_composed_full_name()`, `get_composed_alternative_full_name()` and `get_not_found_name()`, while `Track` defines properties `composed_full_name` and so on, so the first track raises AttributeError | any non-empty track list | read the three properties | high (not executed) | Catalog.AssembleAsWrittenAddsNothing | Catalog.AddTracksToPlaylist |
| vk_api_controller.py:132 | `set(posts)` over `Track` values, a non-frozen dataclass with `eq=True` and so unhashable, raises TypeError | any Radiant Sound post of yesterday whose second line names a desired genre and that has one audio attachment | remove duplicate tracks | high (not executed) | VkLegacy.ProcessGroupsNeverYieldsTracks | VkLegacy.DistinctRadiantTracks |
