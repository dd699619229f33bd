/** The current Spotify side (core/spotify_api_controller.py): choosing a URI
    among search hits, retrying with the alternative query, adding each URI
    to the playlist at most once, and grouping unresolved tracks by post URL.
    The search request, the add request's status and the
    `SequenceMatcher(...).ratio() > 0.95` test are parameters. */
module Catalog {
  import opened Wrappers
  import opened Seqs
  import opened TrackModel
  import PyStr

  /** One entry of `tracks.items` in a search response. */
  datatype Item = Item(name: string, uri: string)

  /** The `tracks` object of a search response; `items` may be absent. */
  datatype TrackPage = TrackPage(items: Option<seq<Item>>)

  /** A search response: its HTTP status and its optional `tracks` object. */
  datatype SearchResponse = SearchResponse(status: int, tracks: Option<TrackPage>)

  /** The external world the assembler talks to. `addStatus(playlistId, uri)`
      is the HTTP status of the add request; `similar(a, b)` stands for
      `SequenceMatcher(None, a, b).ratio() > 0.95`. */
  datatype Service = Service(
    search: string -> SearchResponse,
    addStatus: (string, string) -> int,
    similar: (string, string) -> bool)

  /** The exceptions the Spotify side can raise. */
  datatype Failure =
    | SearchFailed(query: string, status: int)   // `assert` in `get_track_uri`
    | BodyUnreadable(query: string)              // `response.json()` on a 204 answer, which has no body
    | AddFailed(uri: string, status: int)        // `assert` in `add_track_to_playlist`
    | AttributeMissing(name: string)             // AttributeError

  /** The statuses the search `assert` lets through. */
  predicate SearchOk(status: int)
  {
    status in {200, 201, 204}
  }

  /** 204 No Content passes the `assert` but carries no JSON body to parse. */
  predicate HasBody(status: int)
  {
    status != 204
  }

  /** The exception a failed search raises: the `assert` for a status it
      refuses, `response.json()` for a 204 that passes it. */
  function SearchError(query: string, status: int): Failure
  {
    if SearchOk(status) then BodyUnreadable(query) else SearchFailed(query, status)
  }

  predicate AddOk(status: int)
  {
    status in {200, 201}
  }

  /** The hits of a response; a missing or empty `tracks` or `items` gives none. */
  function Candidates(response: SearchResponse): seq<Item>
  {
    if response.tracks.None? || response.tracks.value.items.None? then []
    else response.tracks.value.items.value
  }

  /** The URI of the first hit, in search order, similar to `trackName`. */
  function FirstSimilar(items: seq<Item>, trackName: string, similar: (string, string) -> bool): Option<string>
    decreases |items|
  {
    if |items| == 0 then None
    else if similar(items[0].name, trackName) then Some(items[0].uri)
    else FirstSimilar(items[1..], trackName, similar)
  }

  /** `FirstSimilar` finds nothing iff no hit is similar, and otherwise the
      URI of a similar hit with no similar hit before it: the first match,
      not the best-scoring one. */
  lemma {:induction false} FirstSimilarIsFirstMatch(items: seq<Item>, trackName: string, similar: (string, string) -> bool)
    ensures var r := FirstSimilar(items, trackName, similar);
            && (r.None? <==> forall i :: 0 <= i < |items| ==> !similar(items[i].name, trackName))
            && (r.Some? ==>
                  exists i :: 0 <= i < |items| && items[i].uri == r.value && similar(items[i].name, trackName)
                    && forall j :: 0 <= j < i ==> !similar(items[j].name, trackName))
    decreases |items|
  {
    if |items| > 0 && !similar(items[0].name, trackName) {
      FirstSimilarIsFirstMatch(items[1..], trackName, similar);
      assert forall i :: 1 <= i < |items| ==> items[1..][i - 1] == items[i];
      var r := FirstSimilar(items, trackName, similar);
      if r.Some? {
        var i :| 0 <= i < |items[1..]| && items[1..][i].uri == r.value && similar(items[1..][i].name, trackName)
                 && forall j :: 0 <= j < i ==> !similar(items[1..][j].name, trackName);
        assert items[i + 1].uri == r.value && similar(items[i + 1].name, trackName);
        assert forall j :: 0 <= j < i + 1 ==> !similar(items[j].name, trackName) by {
          forall j | 0 <= j < i + 1
            ensures !similar(items[j].name, trackName)
          {
            if j > 0 {
              assert items[j] == items[1..][j - 1];
            }
          }
        }
      }
    } else if |items| > 0 {
      assert items[0].uri == FirstSimilar(items, trackName, similar).value;
    }
  }

  /** What `get_track_uri(query, trackName)` returns or raises. */
  function LookUp(query: string, trackName: string, service: Service): Result<Option<string>, Failure>
  {
    var response := service.search(query);
    if !SearchOk(response.status) || !HasBody(response.status) then Err(SearchError(query, response.status))
    else Ok(FirstSimilar(Candidates(response), trackName, service.similar))
  }

  /** `get_track_uri`: a linear search over the hits with an early return. */
  method GetTrackUri(query: string, trackName: string, service: Service) returns (r: Result<Option<string>, Failure>)
    ensures r == LookUp(query, trackName, service)
    ensures r.Err? <==> service.search(query).status !in {200, 201}
    ensures service.search(query).status == 204 ==> r == Err(BodyUnreadable(query))
    ensures r.Ok? && Candidates(service.search(query)) == [] ==> r.value.None?
  {
    var response := service.search(query);
    if !SearchOk(response.status) {
      return Err(SearchFailed(query, response.status));
    }
    if !HasBody(response.status) {
      return Err(BodyUnreadable(query));
    }
    if response.tracks.None? {
      return Ok(None);
    }
    var items := response.tracks.value.items;
    if items.None? || |items.value| == 0 {
      return Ok(None);
    }
    var hits := items.value;
    var i := 0;
    while i < |hits|
      invariant 0 <= i <= |hits|
      invariant FirstSimilar(hits[i..], trackName, service.similar) == FirstSimilar(hits, trackName, service.similar)
    {
      if service.similar(hits[i].name, trackName) {
        return Ok(Some(hits[i].uri));
      }
      assert hits[i..][1..] == hits[i + 1..];
      i := i + 1;
    }
    r := Ok(None);
  }

  /** The URI a track resolves to: the primary query against the name, and
      only when that finds nothing, the alternative query against the raw
      title. An empty URI counts as nothing found. */
  function Resolve(t: Track, service: Service): (r: Result<Option<string>, Failure>)
    ensures r.Ok? && r.value.Some? ==> r.value.value != ""
  {
    match LookUp(ComposedFullName(t), t.name, service)
    case Err(e) => Err(e)
    case Ok(first) =>
      if PyStr.Truthy(first) then Ok(first)
      else
        match LookUp(ComposedAlternativeFullName(t), t.alternativeName, service)
        case Err(e) => Err(e)
        case Ok(second) => Ok(if PyStr.Truthy(second) then second else None)
  }

  /** The two `get_track_uri` calls at the head of the loop body of
      `add_tracks_to_playlist`; `queries` lists the searches issued. */
  method ResolveTrack(t: Track, service: Service) returns (r: Result<Option<string>, Failure>, queries: seq<string>)
    ensures r == Resolve(t, service)
    ensures 1 <= |queries| <= 2 && queries[0] == ComposedFullName(t)
    ensures |queries| == 2 <==> LookUp(ComposedFullName(t), t.name, service).Ok? && !PyStr.Truthy(LookUp(ComposedFullName(t), t.name, service).value)
    ensures |queries| == 2 ==> queries[1] == ComposedAlternativeFullName(t)
  {
    queries := [ComposedFullName(t)];
    var trackUri := GetTrackUri(ComposedFullName(t), t.name, service);
    if trackUri.Err? {
      return Err(trackUri.error), queries;
    }
    if PyStr.Truthy(trackUri.value) {
      return trackUri, queries;
    }
    queries := queries + [ComposedAlternativeFullName(t)];
    trackUri := GetTrackUri(ComposedAlternativeFullName(t), t.alternativeName, service);
    if trackUri.Err? {
      return Err(trackUri.error), queries;
    }
    r := Ok(if PyStr.Truthy(trackUri.value) then trackUri.value else None);
  }

  /** `not_found_tracks`: a dict from post URL to report labels; Python dicts
      keep insertion order, which `keys` records. */
  datatype NotFound = NotFound(keys: seq<Option<string>>, lists: map<Option<string>, seq<string>>)

  const NoneNotFound := NotFound([], map[])

  /** The keys are distinct and are exactly the dict's keys. */
  ghost predicate ValidNotFound(m: NotFound)
  {
    NoDup(m.keys) && (forall k :: k in m.lists <==> k in m.keys)
  }

  /** The if/else at lines 92-95: a new key starts a one-element list, a known
      key gets the label appended. */
  function Record(m: NotFound, key: Option<string>, entry: string): (r: NotFound)
    requires ValidNotFound(m)
    ensures ValidNotFound(r)
    ensures r.keys == if key in m.lists then m.keys else m.keys + [key]
    ensures r.lists[key] == (if key in m.lists then m.lists[key] else []) + [entry]
    ensures forall k :: k in r.lists <==> k in m.lists || k == key
    ensures forall k :: k in m.lists && k != key ==> r.lists[k] == m.lists[k]
  {
    if key in m.lists then NotFound(m.keys, m.lists[key := m.lists[key] + [entry]])
    else NotFound(m.keys + [key], m.lists[key := [entry]])
  }

  /** Number of labels over the given keys. */
  function LabelCount(keys: seq<Option<string>>, lists: map<Option<string>, seq<string>>): nat
    decreases |keys|
  {
    if |keys| == 0 then 0
    else
      var k := keys[|keys| - 1];
      LabelCount(keys[..|keys| - 1], lists) + (if k in lists then |lists[k]| else 0)
  }

  /** The state `add_tracks_to_playlist` builds: `adds` lists the add requests
      issued, `added` is `added_tracks_uris`. */
  datatype Run = Run(adds: seq<string>, added: seq<string>, notFound: NotFound)

  const Start := Run([], [], NoneNotFound)

  /** A run that went through every track, or one an exception stopped. */
  datatype Outcome = Finished(run: Run) | Aborted(run: Run, failure: Failure)

  /** One iteration of the loop of `add_tracks_to_playlist`. */
  function Step(run: Run, t: Track, playlistId: string, service: Service): Outcome
    requires ValidNotFound(run.notFound)
  {
    match Resolve(t, service)
    case Err(e) => Aborted(run, e)
    case Ok(uri) =>
      if uri.None? then Finished(run.(notFound := Record(run.notFound, t.vkPostUrl, NotFoundName(t))))
      else if uri.value in run.added then Finished(run)
      else
        var status := service.addStatus(playlistId, uri.value);
        if AddOk(status) then Finished(run.(adds := run.adds + [uri.value], added := run.added + [uri.value]))
        else Aborted(run.(adds := run.adds + [uri.value]), AddFailed(uri.value, status))
  }

  /** The loop of `add_tracks_to_playlist` over `tracks`, stopping at the
      first exception. */
  function Assemble(tracks: seq<Track>, playlistId: string, service: Service): (out: Outcome)
    ensures ValidNotFound(out.run.notFound)
    decreases |tracks|
  {
    if |tracks| == 0 then Finished(Start)
    else
      match Assemble(tracks[..|tracks| - 1], playlistId, service)
      case Aborted(run, e) => Aborted(run, e)
      case Finished(run) => Step(run, tracks[|tracks| - 1], playlistId, service)
  }

  /** `add_track_to_playlist`: the request itself is `service.addStatus`. */
  method AddTrackToPlaylist(playlistId: string, trackUri: string, service: Service) returns (r: Result<(), Failure>)
    ensures r.Ok? <==> AddOk(service.addStatus(playlistId, trackUri))
    ensures r.Err? ==> r.error == AddFailed(trackUri, service.addStatus(playlistId, trackUri))
  {
    var status := service.addStatus(playlistId, trackUri);
    if !AddOk(status) {
      return Err(AddFailed(trackUri, status));
    }
    r := Ok(());
  }

  /** `add_tracks_to_playlist`, with the track properties read as properties
      (see Findings in the README). */
  method AddTracksToPlaylist(playlistId: string, tracks: seq<Track>, service: Service) returns (out: Outcome)
    ensures out == Assemble(tracks, playlistId, service)
  {
    var adds: seq<string> := [];
    var addedTracksUris: seq<string> := [];
    var notFoundTracks := NoneNotFound;
    var i := 0;
    while i < |tracks|
      invariant 0 <= i <= |tracks|
      invariant Assemble(tracks[..i], playlistId, service) == Finished(Run(adds, addedTracksUris, notFoundTracks))
    {
      var track := tracks[i];
      assert tracks[..i + 1][..i] == tracks[..i];
      var trackUri, _ := ResolveTrack(track, service);
      if trackUri.Err? {
        AbortSticks(tracks, i + 1, playlistId, service);
        return Aborted(Run(adds, addedTracksUris, notFoundTracks), trackUri.error);
      }
      if trackUri.value.None? {
        var notFoundTrackName := NotFoundName(track);
        if track.vkPostUrl !in notFoundTracks.lists {
          notFoundTracks := NotFound(notFoundTracks.keys + [track.vkPostUrl], notFoundTracks.lists[track.vkPostUrl := [notFoundTrackName]]);
        } else {
          notFoundTracks := NotFound(notFoundTracks.keys, notFoundTracks.lists[track.vkPostUrl := notFoundTracks.lists[track.vkPostUrl] + [notFoundTrackName]]);
        }
      } else if trackUri.value.value !in addedTracksUris {
        var uri := trackUri.value.value;
        adds := adds + [uri];
        var added := AddTrackToPlaylist(playlistId, uri, service);
        if added.Err? {
          AbortSticks(tracks, i + 1, playlistId, service);
          return Aborted(Run(adds, addedTracksUris, notFoundTracks), added.error);
        }
        addedTracksUris := addedTracksUris + [uri];
      }
      i := i + 1;
    }
    assert tracks[..i] == tracks;
    out := Finished(Run(adds, addedTracksUris, notFoundTracks));
  }

  /** Once an exception is raised, no later track is looked at. */
  lemma {:induction false} AbortSticks(tracks: seq<Track>, n: nat, playlistId: string, service: Service)
    requires n <= |tracks|
    requires Assemble(tracks[..n], playlistId, service).Aborted?
    ensures Assemble(tracks, playlistId, service) == Assemble(tracks[..n], playlistId, service)
    decreases |tracks|
  {
    if n < |tracks| {
      var init := tracks[..|tracks| - 1];
      assert init[..n] == tracks[..n];
      AbortSticks(init, n, playlistId, service);
    } else {
      assert tracks[..n] == tracks;
    }
  }

  /** Everything after an exception is dropped: the run of `a + b` is the run of `a`. */
  lemma AbortedPrefix(a: seq<Track>, b: seq<Track>, playlistId: string, service: Service)
    requires Assemble(a, playlistId, service).Aborted?
    ensures Assemble(a + b, playlistId, service) == Assemble(a, playlistId, service)
  {
    assert (a + b)[..|a|] == a;
    AbortSticks(a + b, |a|, playlistId, service);
  }

  /** A finished run that is extended by one track is one `Step` of the
      finished run of the shorter list. */
  lemma AssembleLast(tracks: seq<Track>, playlistId: string, service: Service)
    requires |tracks| > 0 && Assemble(tracks, playlistId, service).Finished?
    ensures Assemble(tracks[..|tracks| - 1], playlistId, service).Finished?
    ensures Assemble(tracks, playlistId, service)
            == Step(Assemble(tracks[..|tracks| - 1], playlistId, service).run, tracks[|tracks| - 1], playlistId, service)
  {
  }

  /** The add log of an outcome: no URI twice, and the requests are
      `added_tracks_uris` plus the URI of a final add that failed. */
  predicate AddLog(out: Outcome)
  {
    && NoDup(out.run.adds)
    && (if out.Aborted? && out.failure.AddFailed? then out.run.adds == out.run.added + [out.failure.uri]
        else out.run.adds == out.run.added)
  }

  lemma StepKeepsAddLog(run: Run, t: Track, playlistId: string, service: Service)
    requires ValidNotFound(run.notFound) && AddLog(Finished(run))
    ensures AddLog(Step(run, t, playlistId, service))
  {
  }

  /** No URI is ever requested twice, and add requests match
      `added_tracks_uris` except for a final add that failed. */
  lemma {:induction false} AddsAtMostOnce(tracks: seq<Track>, playlistId: string, service: Service)
    ensures AddLog(Assemble(tracks, playlistId, service))
    decreases |tracks|
  {
    if |tracks| > 0 {
      var init := tracks[..|tracks| - 1];
      AddsAtMostOnce(init, playlistId, service);
      var prev := Assemble(init, playlistId, service);
      if prev.Finished? {
        StepKeepsAddLog(prev.run, tracks[|tracks| - 1], playlistId, service);
      }
    }
  }

  /** The URIs the tracks resolve to, in track order, repeats included. */
  function ResolvedUris(tracks: seq<Track>, service: Service): seq<string>
    decreases |tracks|
  {
    if |tracks| == 0 then []
    else
      var r := Resolve(tracks[|tracks| - 1], service);
      ResolvedUris(tracks[..|tracks| - 1], service) + (if r.Ok? && r.value.Some? then [r.value.value] else [])
  }

  lemma ResolvedUrisLast(tracks: seq<Track>, t: Track, service: Service)
    ensures ResolvedUris(tracks + [t], service)
            == ResolvedUris(tracks, service)
               + (if Resolve(t, service).Ok? && Resolve(t, service).value.Some? then [Resolve(t, service).value.value] else [])
  {
    assert (tracks + [t])[..|tracks|] == tracks;
  }

  /** What a finished step does to `added_tracks_uris` and to the report. */
  lemma StepEffect(run: Run, t: Track, playlistId: string, service: Service)
    requires ValidNotFound(run.notFound) && Step(run, t, playlistId, service).Finished?
    ensures Resolve(t, service).Ok?
    ensures var uri := Resolve(t, service).value;
            var next := Step(run, t, playlistId, service).run;
            && next.added == (if uri.Some? && uri.value !in run.added then run.added + [uri.value] else run.added)
            && next.notFound == (if uri.None? then Record(run.notFound, t.vkPostUrl, NotFoundName(t)) else run.notFound)
  {
  }

  /** A finished run added each resolved URI once, in the order in which the
      URIs were first resolved. */
  lemma {:induction false} AddedInFirstResolutionOrder(tracks: seq<Track>, playlistId: string, service: Service)
    requires Assemble(tracks, playlistId, service).Finished?
    ensures Assemble(tracks, playlistId, service).run.added == Dedup(ResolvedUris(tracks, service))
    decreases |tracks|
  {
    if |tracks| > 0 {
      var init := tracks[..|tracks| - 1];
      var t := tracks[|tracks| - 1];
      assert init + [t] == tracks;
      ResolvedUrisLast(init, t, service);
      AssembleLast(tracks, playlistId, service);
      AddedInFirstResolutionOrder(init, playlistId, service);
      var run := Assemble(init, playlistId, service).run;
      StepEffect(run, t, playlistId, service);
      var uri := Resolve(t, service).value;
      if uri.Some? {
        DedupSnoc(ResolvedUris(init, service), uri.value);
      } else {
        assert ResolvedUris(tracks, service) == ResolvedUris(init, service);
      }
    }
  }
  /** The `not in` test already keeps a finished run's `added_tracks_uris`
      free of repeats: deduplicating it changes nothing. */
  lemma AddedIsDeduplicated(tracks: seq<Track>, playlistId: string, service: Service)
    requires Assemble(tracks, playlistId, service).Finished?
    ensures Dedup(Assemble(tracks, playlistId, service).run.added) == Assemble(tracks, playlistId, service).run.added
  {
    AddedInFirstResolutionOrder(tracks, playlistId, service);
    DedupOfNoDup(Assemble(tracks, playlistId, service).run.added);
  }


  /** The post URLs of the unresolved tracks, in track order, repeats included. */
  function UnresolvedUrls(tracks: seq<Track>, service: Service): seq<Option<string>>
    decreases |tracks|
  {
    if |tracks| == 0 then []
    else
      var t := tracks[|tracks| - 1];
      UnresolvedUrls(tracks[..|tracks| - 1], service) + (if Resolve(t, service) == Ok(None) then [t.vkPostUrl] else [])
  }

  /** The report labels of the unresolved tracks of post `key`, in track order. */
  function LabelsFor(tracks: seq<Track>, key: Option<string>, service: Service): seq<string>
    decreases |tracks|
  {
    if |tracks| == 0 then []
    else
      var t := tracks[|tracks| - 1];
      LabelsFor(tracks[..|tracks| - 1], key, service)
      + (if Resolve(t, service) == Ok(None) && t.vkPostUrl == key then [NotFoundName(t)] else [])
  }

  /** The report `m` is the one the unresolved tracks among `tracks` call
      for: keys in first-encounter order, each key with its tracks' labels in
      track order, and no labels for keys it lacks. */
  ghost predicate Reports(m: NotFound, tracks: seq<Track>, service: Service)
  {
    && m.keys == Dedup(UnresolvedUrls(tracks, service))
    && (forall k :: k in m.lists ==> m.lists[k] == LabelsFor(tracks, k, service))
    && (forall k :: k !in m.lists ==> LabelsFor(tracks, k, service) == [])
  }

  lemma LabelsForLast(tracks: seq<Track>, t: Track, k: Option<string>, service: Service)
    ensures LabelsFor(tracks + [t], k, service)
            == LabelsFor(tracks, k, service) + (if Resolve(t, service) == Ok(None) && t.vkPostUrl == k then [NotFoundName(t)] else [])
  {
    assert (tracks + [t])[..|tracks|] == tracks;
  }

  lemma UnresolvedUrlsLast(tracks: seq<Track>, t: Track, service: Service)
    ensures UnresolvedUrls(tracks + [t], service)
            == UnresolvedUrls(tracks, service) + (if Resolve(t, service) == Ok(None) then [t.vkPostUrl] else [])
  {
    assert (tracks + [t])[..|tracks|] == tracks;
  }

  /** A track the catalog resolved leaves the report as it is. */
  lemma ReportsSkip(m: NotFound, tracks: seq<Track>, t: Track, service: Service)
    requires Reports(m, tracks, service) && Resolve(t, service) != Ok(None)
    ensures Reports(m, tracks + [t], service)
  {
    UnresolvedUrlsLast(tracks, t, service);
    assert UnresolvedUrls(tracks + [t], service) == UnresolvedUrls(tracks, service) + [];
    assert UnresolvedUrls(tracks + [t], service) == UnresolvedUrls(tracks, service);
    forall k
      ensures LabelsFor(tracks + [t], k, service) == LabelsFor(tracks, k, service)
    {
      LabelsForLast(tracks, t, k, service);
      assert LabelsFor(tracks + [t], k, service) == LabelsFor(tracks, k, service) + [];
    }
  }

  /** Recording an unresolved track keeps the keys in first-encounter order. */
  lemma RecordKeys(m: NotFound, tracks: seq<Track>, t: Track, service: Service)
    requires ValidNotFound(m) && m.keys == Dedup(UnresolvedUrls(tracks, service)) && Resolve(t, service) == Ok(None)
    ensures Record(m, t.vkPostUrl, NotFoundName(t)).keys == Dedup(UnresolvedUrls(tracks + [t], service))
  {
    UnresolvedUrlsLast(tracks, t, service);
    DedupSnoc(UnresolvedUrls(tracks, service), t.vkPostUrl);
  }

  /** Recording an unresolved track keeps every list equal to its labels. */
  lemma RecordLists(m: NotFound, tracks: seq<Track>, t: Track, service: Service)
    requires ValidNotFound(m) && Resolve(t, service) == Ok(None)
    requires forall k :: k in m.lists ==> m.lists[k] == LabelsFor(tracks, k, service)
    requires forall k :: k !in m.lists ==> LabelsFor(tracks, k, service) == []
    ensures var r := Record(m, t.vkPostUrl, NotFoundName(t));
            && (forall k :: k in r.lists ==> r.lists[k] == LabelsFor(tracks + [t], k, service))
            && (forall k :: k !in r.lists ==> LabelsFor(tracks + [t], k, service) == [])
  {
    var r := Record(m, t.vkPostUrl, NotFoundName(t));
    forall k
      ensures k in r.lists ==> r.lists[k] == LabelsFor(tracks + [t], k, service)
      ensures k !in r.lists ==> LabelsFor(tracks + [t], k, service) == []
    {
      LabelsForLast(tracks, t, k, service);
      if k != t.vkPostUrl {
        assert LabelsFor(tracks + [t], k, service) == LabelsFor(tracks, k, service) + [];
      }
    }
  }

  /** In a finished run the report is the grouping of the unresolved tracks
      by post URL that `Reports` describes. */
  lemma {:induction false} NotFoundReport(tracks: seq<Track>, playlistId: string, service: Service)
    requires Assemble(tracks, playlistId, service).Finished?
    ensures Reports(Assemble(tracks, playlistId, service).run.notFound, tracks, service)
    decreases |tracks|
  {
    if |tracks| > 0 {
      var init := tracks[..|tracks| - 1];
      var t := tracks[|tracks| - 1];
      assert init + [t] == tracks;
      AssembleLast(tracks, playlistId, service);
      NotFoundReport(init, playlistId, service);
      var run := Assemble(init, playlistId, service).run;
      StepEffect(run, t, playlistId, service);
      if Resolve(t, service) == Ok(None) {
        RecordKeys(run.notFound, init, t, service);
        RecordLists(run.notFound, init, t, service);
      } else {
        ReportsSkip(run.notFound, init, t, service);
      }
    }
  }


  /** Recounting over keys whose lists did not change gives the same count. */
  lemma {:induction false} LabelCountFrame(keys: seq<Option<string>>, a: map<Option<string>, seq<string>>, b: map<Option<string>, seq<string>>)
    requires forall k :: k in keys ==> (k in a <==> k in b) && (k in a ==> a[k] == b[k])
    ensures LabelCount(keys, a) == LabelCount(keys, b)
    decreases |keys|
  {
    if |keys| > 0 {
      LabelCountFrame(keys[..|keys| - 1], a, b);
    }
  }

  /** Replacing the list of one key that occurs once changes the count by
      the difference in length. */
  lemma {:induction false} LabelCountUpdate(keys: seq<Option<string>>, lists: map<Option<string>, seq<string>>, key: Option<string>, l: seq<string>)
    requires NoDup(keys) && key in keys && key in lists
    ensures LabelCount(keys, lists[key := l]) + |lists[key]| == LabelCount(keys, lists) + |l|
    decreases |keys|
  {
    var init := keys[..|keys| - 1];
    var last := keys[|keys| - 1];
    assert NoDup(init);
    if last == key {
      assert key !in init;
      LabelCountFrame(init, lists[key := l], lists);
    } else {
      assert key in init;
      LabelCountUpdate(init, lists, key, l);
    }
  }

  /** Recording one label adds one to the count. */
  lemma RecordCounts(m: NotFound, key: Option<string>, entry: string)
    requires ValidNotFound(m)
    ensures LabelCount(Record(m, key, entry).keys, Record(m, key, entry).lists) == LabelCount(m.keys, m.lists) + 1
  {
    var r := Record(m, key, entry);
    if key in m.lists {
      LabelCountUpdate(m.keys, m.lists, key, m.lists[key] + [entry]);
    } else {
      assert r.keys[..|r.keys| - 1] == m.keys;
      LabelCountFrame(m.keys, r.lists, m.lists);
    }
  }

  /** In a finished run the report holds exactly one label per unresolved track. */
  lemma {:induction false} NotFoundTotal(tracks: seq<Track>, playlistId: string, service: Service)
    requires Assemble(tracks, playlistId, service).Finished?
    ensures var m := Assemble(tracks, playlistId, service).run.notFound;
            LabelCount(m.keys, m.lists) == |UnresolvedUrls(tracks, service)|
    decreases |tracks|
  {
    if |tracks| > 0 {
      var init := tracks[..|tracks| - 1];
      var t := tracks[|tracks| - 1];
      assert init + [t] == tracks;
      UnresolvedUrlsLast(init, t, service);
      AssembleLast(tracks, playlistId, service);
      NotFoundTotal(init, playlistId, service);
      StepCounts(Assemble(init, playlistId, service).run, t, playlistId, service);
    }
  }

  /** One finished step adds one label exactly when the track is unresolved. */
  lemma StepCounts(run: Run, t: Track, playlistId: string, service: Service)
    requires ValidNotFound(run.notFound) && Step(run, t, playlistId, service).Finished?
    ensures var m := Step(run, t, playlistId, service).run.notFound;
            LabelCount(m.keys, m.lists)
            == LabelCount(run.notFound.keys, run.notFound.lists) + (if Resolve(t, service) == Ok(None) then 1 else 0)
  {
    StepEffect(run, t, playlistId, service);
    if Resolve(t, service) == Ok(None) {
      RecordCounts(run.notFound, t.vkPostUrl, NotFoundName(t));
    }
  }


  /** Several tracks, from any posts, that all resolve to one URI give one
      add request and an empty report. */
  lemma {:induction false} SameUriAddedOnce(tracks: seq<Track>, uri: string, playlistId: string, service: Service)
    requires |tracks| >= 1
    requires forall i :: 0 <= i < |tracks| ==> Resolve(tracks[i], service) == Ok(Some(uri))
    requires AddOk(service.addStatus(playlistId, uri))
    ensures Assemble(tracks, playlistId, service) == Finished(Run([uri], [uri], NoneNotFound))
    decreases |tracks|
  {
    var init := tracks[..|tracks| - 1];
    if |init| > 0 {
      SameUriAddedOnce(init, uri, playlistId, service);
    }
  }

  /** `add_tracks_to_playlist` as written: line 86 calls
      `track.get_composed_full_name()`, which `Track` does not define (it has
      the property `composed_full_name`), so the first track raises
      AttributeError before any search. */
  function AssembleAsWritten(tracks: seq<Track>): Outcome
  {
    if |tracks| == 0 then Finished(Start) else Aborted(Start, AttributeMissing("get_composed_full_name"))
  }

  /** As written, any non-empty track list aborts with nothing added and
      nothing reported, whereas the corrected `Assemble` resolves and adds;
      the two agree only on the empty list. */
  lemma AssembleAsWrittenAddsNothing(tracks: seq<Track>, playlistId: string, service: Service)
    ensures AssembleAsWritten(tracks).run == Start
    ensures AssembleAsWritten(tracks).Aborted? <==> tracks != []
    ensures tracks == [] ==> AssembleAsWritten(tracks) == Assemble(tracks, playlistId, service)
  {
  }
}
