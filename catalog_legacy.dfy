/** The earlier Spotify controller (spotify_api_controller.py): the first
    search hit is taken as it is, the retry repeats the same query, tracks
    that are not found are dropped without a report, and every resolved
    track is added, repeats included. */
module CatalogLegacy {
  import opened Wrappers
  import PyStr
  import Catalog
  import VkPosts
  import VkLegacy

  /** The search request and the add request's status; the earlier code has
      no similarity test. */
  datatype Service = Service(search: string -> Catalog.SearchResponse, addStatus: (string, string) -> int)

  /** What the earlier `get_track_uri(name)` returns or raises: the URI of
      the first hit, whatever its name. */
  function LookUp(query: string, service: Service): Result<Option<string>, Catalog.Failure>
  {
    var response := service.search(query);
    if !Catalog.SearchOk(response.status) || !Catalog.HasBody(response.status) then Err(Catalog.SearchError(query, response.status))
    else
      var hits := Catalog.Candidates(response);
      if |hits| == 0 then Ok(None) else Ok(Some(hits[0].uri))
  }

  /** `get_track_uri`. */
  method GetTrackUri(name: string, service: Service) returns (r: Result<Option<string>, Catalog.Failure>)
    ensures r == LookUp(name, service)
    ensures r.Err? <==> service.search(name).status !in {200, 201}
    ensures service.search(name).status == 204 ==> r == Err(Catalog.BodyUnreadable(name))
    ensures r.Ok? ==> (r.value.None? <==> Catalog.Candidates(service.search(name)) == [])
  {
    var response := service.search(name);
    if !Catalog.SearchOk(response.status) {
      return Err(Catalog.SearchFailed(name, response.status));
    }
    if !Catalog.HasBody(response.status) {
      return Err(Catalog.BodyUnreadable(name));
    }
    if response.tracks.None? {
      return Ok(None);
    }
    var items := response.tracks.value.items;
    if items.None? || |items.value| == 0 {
      return Ok(None);
    }
    r := Ok(Some(items.value[0].uri));
  }

  /** The earlier selection is the current first-similar selection under a
      similarity test that every hit passes. */
  lemma FirstHitIsFirstSimilarWithoutThreshold(query: string, trackName: string, service: Service, similar: (string, string) -> bool)
    requires forall a, b :: similar(a, b)
    ensures LookUp(query, service) == Catalog.LookUp(query, trackName, Catalog.Service(service.search, service.addStatus, similar))
  {
    var hits := Catalog.Candidates(service.search(query));
    if |hits| > 0 {
      assert similar(hits[0].name, trackName);
    }
  }

  /** The two `get_track_uri` calls at the head of the loop body of
      `add_tracks_to_playlist`: the retry, when the first result is falsy and
      the track has a truthy raw title, repeats `full_name`. */
  function Resolve(t: VkLegacy.Track, service: Service): Result<Option<string>, Catalog.Failure>
  {
    match LookUp(t.fullName, service)
    case Err(e) => Err(e)
    case Ok(first) =>
      if !PyStr.Truthy(first) && PyStr.Truthy(t.alternativeName) then LookUp(t.fullName, service)
      else Ok(first)
  }

  /** Under a search that answers the same query the same way, the retry
      can never change the result. */
  lemma {:induction false} RetryRepeatsFirstQuery(t: VkLegacy.Track, service: Service)
    ensures Resolve(t, service) == LookUp(t.fullName, service)
  {
    match LookUp(t.fullName, service)
    case Err(e) =>
    case Ok(first) =>
  }

  /** The searches as the loop body issues them; `queries` lists the
      searches issued. */
  method ResolveTrack(t: VkLegacy.Track, service: Service) returns (r: Result<Option<string>, Catalog.Failure>, queries: seq<string>)
    ensures r == Resolve(t, service)
    ensures |queries| == 2 <==>
              LookUp(t.fullName, service).Ok? && !PyStr.Truthy(LookUp(t.fullName, service).value) && PyStr.Truthy(t.alternativeName)
    ensures 1 <= |queries| <= 2 && forall i :: 0 <= i < |queries| ==> queries[i] == t.fullName
  {
    queries := [t.fullName];
    var trackUri := GetTrackUri(t.fullName, service);
    if trackUri.Err? {
      return trackUri, queries;
    }
    if !PyStr.Truthy(trackUri.value) && PyStr.Truthy(t.alternativeName) {
      queries := queries + [t.fullName];
      trackUri := GetTrackUri(t.fullName, service);
    }
    r := trackUri;
  }

  /** A run that went through every track, or one an exception stopped;
      `adds` lists the add requests issued. */
  datatype Outcome = Finished(adds: seq<string>) | Aborted(adds: seq<string>, failure: Catalog.Failure)

  /** One iteration of the loop of `add_tracks_to_playlist`. */
  function Step(adds: seq<string>, t: VkLegacy.Track, playlistId: string, service: Service): Outcome
  {
    match Resolve(t, service)
    case Err(e) => Aborted(adds, e)
    case Ok(uri) =>
      if !PyStr.Truthy(uri) then Finished(adds)
      else
        var status := service.addStatus(playlistId, uri.value);
        if Catalog.AddOk(status) then Finished(adds + [uri.value])
        else Aborted(adds + [uri.value], Catalog.AddFailed(uri.value, status))
  }

  /** The loop of `add_tracks_to_playlist` over `tracks`, stopping at the
      first exception. */
  function Assemble(tracks: seq<VkLegacy.Track>, playlistId: string, service: Service): Outcome
    decreases |tracks|
  {
    if |tracks| == 0 then Finished([])
    else
      match Assemble(tracks[..|tracks| - 1], playlistId, service)
      case Aborted(adds, e) => Aborted(adds, e)
      case Finished(adds) => Step(adds, tracks[|tracks| - 1], playlistId, service)
  }

  /** Once an exception is raised, no later track is looked at. */
  lemma {:induction false} AbortSticks(tracks: seq<VkLegacy.Track>, n: nat, playlistId: string, service: Service)
    requires n <= |tracks|
    requires Assemble(tracks[..n], playlistId, service).Aborted?
    ensures Assemble(tracks, playlistId, service) == Assemble(tracks[..n], playlistId, service)
    decreases |tracks|
  {
    if n < |tracks| {
      var init := tracks[..|tracks| - 1];
      assert init[..n] == tracks[..n];
      AbortSticks(init, n, playlistId, service);
    } else {
      assert tracks[..n] == tracks;
    }
  }

  /** `add_track_to_playlist`: the request itself is `service.addStatus`. */
  method AddTrackToPlaylist(playlistId: string, trackUri: string, service: Service) returns (r: Result<(), Catalog.Failure>)
    ensures r.Ok? <==> Catalog.AddOk(service.addStatus(playlistId, trackUri))
    ensures r.Err? ==> r.error == Catalog.AddFailed(trackUri, service.addStatus(playlistId, trackUri))
  {
    var status := service.addStatus(playlistId, trackUri);
    if !Catalog.AddOk(status) {
      return Err(Catalog.AddFailed(trackUri, status));
    }
    r := Ok(());
  }

  /** `add_tracks_to_playlist`. */
  method AddTracksToPlaylist(playlistId: string, tracks: seq<VkLegacy.Track>, service: Service) returns (out: Outcome)
    ensures out == Assemble(tracks, playlistId, service)
  {
    var adds: seq<string> := [];
    var i := 0;
    while i < |tracks|
      invariant 0 <= i <= |tracks|
      invariant Assemble(tracks[..i], playlistId, service) == Finished(adds)
    {
      var track := tracks[i];
      assert tracks[..i + 1][..i] == tracks[..i];
      var trackUri, _ := ResolveTrack(track, service);
      if trackUri.Err? {
        AbortSticks(tracks, i + 1, playlistId, service);
        return Aborted(adds, trackUri.error);
      }
      if PyStr.Truthy(trackUri.value) {
        var uri := trackUri.value.value;
        adds := adds + [uri];
        var added := AddTrackToPlaylist(playlistId, uri, service);
        if added.Err? {
          AbortSticks(tracks, i + 1, playlistId, service);
          return Aborted(adds, added.error);
        }
      }
      i := i + 1;
    }
    assert tracks[..i] == tracks;
    out := Finished(adds);
  }

  /** The URIs the tracks resolve to, in track order, repeats included. */
  function ResolvedUris(tracks: seq<VkLegacy.Track>, service: Service): seq<string>
    decreases |tracks|
  {
    if |tracks| == 0 then []
    else
      var r := Resolve(tracks[|tracks| - 1], service);
      ResolvedUris(tracks[..|tracks| - 1], service) + (if r.Ok? && PyStr.Truthy(r.value) then [r.value.value] else [])
  }

  /** A finished run made one add request per resolved track, in track
      order, with no deduplication; unresolved tracks leave no trace. */
  lemma {:induction false} AddsEveryResolvedTrack(tracks: seq<VkLegacy.Track>, playlistId: string, service: Service)
    requires Assemble(tracks, playlistId, service).Finished?
    ensures Assemble(tracks, playlistId, service).adds == ResolvedUris(tracks, service)
    decreases |tracks|
  {
    if |tracks| > 0 {
      AddsEveryResolvedTrack(tracks[..|tracks| - 1], playlistId, service);
    }
  }

  /** The same track twice is added twice, where the current assembler adds
      it once. */
  lemma DuplicateAdded(t: VkLegacy.Track, uri: string, playlistId: string, service: Service)
    requires LookUp(t.fullName, service) == Ok(Some(uri)) && uri != ""
    requires Catalog.AddOk(service.addStatus(playlistId, uri))
    ensures Assemble([t, t], playlistId, service) == Finished([uri, uri])
  {
    RetryRepeatsFirstQuery(t, service);
    assert [t, t][..1] == [t];
    assert [t][..0] == [];
    assert Assemble([t], playlistId, service) == Step([], t, playlistId, service);
    assert Step([], t, playlistId, service) == Finished([uri]);
    assert Step([uri], t, playlistId, service) == Finished([uri, uri]);
  }
}
