/** The current VK side (core/vk_api_controller.py): the per-group genre
    policy, turning one post into tracks or an "unparseable playlist" URL, and
    the nested group/post loop of `process_groups`. The HTTP request is the
    `fetch` parameter (domain to response) and `Track.compose_artist_name`,
    which the `Track` class of model/track.py does not define, is the
    uninterpreted `composeArtist`. */
module VkIngest {
  import opened Wrappers
  import opened PyStr
  import opened TrackModel
  import opened VkPosts

  /** The `Groups` enum, in declaration order. */
  datatype Group = Jazzve | Soundfields | Glbdom | RadiantSound | CraftMusic

  const AllGroups: seq<Group> := [Jazzve, Soundfields, Glbdom, RadiantSound, CraftMusic]

  /** `Groups[g].value`: the domain the wall is fetched by. */
  function Domain(g: Group): string
  {
    match g
    case Jazzve => "jazzve"
    case Soundfields => "soundfields"
    case Glbdom => "glbdom"
    case RadiantSound => "radiant_sound_home"
    case CraftMusic => "craftmusique"
  }

  /** `GroupsIDs[g.name].value`. */
  function GroupId(g: Group): nat
  {
    match g
    case Jazzve => 79069156
    case Soundfields => 5124202
    case Glbdom => 152579809
    case RadiantSound => 32159054
    case CraftMusic => 40030199
  }

  /** The genre rule a group's posts must pass. */
  datatype Policy =
    | AcceptAll            // no genre rule
    | SecondLineGenres     // second text line, split on '/'
    | LastLineHashtags     // whitelisted texts pass; else last line, '#' removed, split on ' '

  const ExemptTexts: set<string> := {"#somegoods", "#qweektunes"}

  function PolicyOf(g: Group): Policy
  {
    match g
    case RadiantSound => SecondLineGenres
    case Soundfields => LastLineHashtags
    case _ => AcceptAll
  }

  /** `_check_genres`: the tokens, as a set, meet the desired genres. */
  function CheckGenres(tokens: seq<string>): (b: bool)
    ensures b <==> exists i :: 0 <= i < |tokens| && tokens[i] in DesiredGenres
  {
    var common := (set i | 0 <= i < |tokens| :: tokens[i]) * DesiredGenres;
    if common != {} then
      assert exists i :: 0 <= i < |tokens| && tokens[i] in common;
      true
    else
      assert forall i :: 0 <= i < |tokens| ==> tokens[i] !in common;
      false
  }

  /** The genre branch of the loop body in `process_groups`: `Ok(false)` is a
      `continue`, an error is the exception the body raises. */
  function Admit(policy: Policy, post: Post): Result<bool, Failure>
  {
    match policy
    case AcceptAll => Ok(true)
    case SecondLineGenres =>
      if !Truthy(post.text) then Ok(false)
      else
        var lines := Split(post.text.value, '\n');
        if |lines| < 2 then Err(IndexOutOfRange)
        else Ok(CheckGenres(Split(lines[1], '/')))
    case LastLineHashtags =>
      if post.text.None? then Err(MissingKey("text"))
      else if post.text.value in ExemptTexts then Ok(true)
      else Ok(CheckGenres(Split(RemoveAll(Last(Split(post.text.value, '\n')), '#'), ' ')))
  }

  /** RADIANT_SOUND: a post without text is skipped, a one-line text raises,
      otherwise the genres of the second line decide. */
  lemma RadiantSoundAdmit(post: Post)
    ensures !Truthy(post.text) ==> Admit(SecondLineGenres, post) == Ok(false)
    ensures Truthy(post.text) ==> (Admit(SecondLineGenres, post).Err? <==> '\n' !in post.text.value)
    ensures Truthy(post.text) && |Split(post.text.value, '\n')| >= 2 ==>
              Admit(SecondLineGenres, post) == Ok(CheckGenres(Split(Split(post.text.value, '\n')[1], '/')))
  {
    if Truthy(post.text) {
      var text := post.text.value;
      SplitLength(text, '\n');
      CountPositive(text, '\n');
    }
  }

  /** A string holds `c` exactly when `c` is counted in it. */
  lemma {:induction false} CountPositive(s: string, c: char)
    ensures c in s <==> Count(s, c) > 0
    decreases |s|
  {
    if |s| > 0 {
      CountPositive(s[1..], c);
      assert c in s <==> s[0] == c || c in s[1..];
    }
  }

  /** SOUNDFIELDS: a whitelisted text passes whatever its genres, a post
      without text raises. */
  lemma SoundfieldsAdmit(post: Post)
    ensures post.text.None? ==> Admit(LastLineHashtags, post) == Err(MissingKey("text"))
    ensures post.text.Some? && post.text.value in ExemptTexts ==> Admit(LastLineHashtags, post) == Ok(true)
    ensures post.text.Some? ==> Admit(LastLineHashtags, post).Ok?
    ensures post.text.Some? && post.text.value !in ExemptTexts ==>
              Admit(LastLineHashtags, post) == Ok(CheckGenres(Split(RemoveAll(Last(Split(post.text.value, '\n')), '#'), ' ')))
  {
  }

  /** A text whose second line starts with a desired genre before a '/'
      passes the RADIANT_SOUND rule; "header\nhouse/techno" is one. */
  lemma SecondLineGenreAdmits(post: Post, header: string, genre: string, others: string)
    requires '\n' !in header && '\n' !in genre && '\n' !in others && '/' !in genre
    requires genre in DesiredGenres
    requires post.text == Some(header + "\n" + genre + "/" + others)
    ensures Admit(SecondLineGenres, post) == Ok(true)
  {
    var line := genre + "/" + others;
    assert post.text.value == header + ['\n'] + line;
    SplitOfCons(header, '\n', line);
    assert '\n' !in line;
    SplitOfPiece(line, '\n');
    assert Split(post.text.value, '\n') == [header, line];
    assert line == genre + ['/'] + others;
    SplitOfCons(genre, '/', others);
    assert Split(line, '/')[0] == genre;
  }

  /** The last line of "header\nline" is `line`. */
  lemma LastLineOf(header: string, line: string)
    requires '\n' !in header && '\n' !in line
    ensures Last(Split(header + "\n" + line, '\n')) == line
  {
    assert header + "\n" + line == header + ['\n'] + line;
    SplitOfCons(header, '\n', line);
    SplitOfPiece(line, '\n');
  }

  /** Removing the `#`s of "#first #genre" leaves "first genre". */
  lemma HashtagsRemoved(first: string, genre: string)
    requires '#' !in first && '#' !in genre
    ensures RemoveAll("#" + first + " #" + genre, '#') == first + " " + genre
  {
    var tagged := ['#'] + genre;
    var spaced := [' '] + tagged;
    assert "#" + first + " #" + genre == ['#'] + (first + spaced);
    RemoveAllAbsent(genre, '#');
    RemoveAllCons('#', genre, '#');
    assert RemoveAll(tagged, '#') == genre;
    RemoveAllCons(' ', tagged, '#');
    assert RemoveAll(spaced, '#') == [' '] + genre;
    RemoveAllAppend(first, spaced, '#');
    RemoveAllAbsent(first, '#');
    assert RemoveAll(first + spaced, '#') == first + ([' '] + genre);
    RemoveAllCons('#', first + spaced, '#');
    assert first + " " + genre == first + ([' '] + genre);
  }

  /** "first genre" splits at the space into its two words. */
  lemma TwoWords(first: string, genre: string)
    requires ' ' !in first && ' ' !in genre
    ensures Split(first + " " + genre, ' ') == [first, genre]
  {
    assert first + " " + genre == first + [' '] + genre;
    SplitOfCons(first, ' ', genre);
    SplitOfPiece(genre, ' ');
  }

  /** A text whose last line is a pair of hashtags, the second a desired
      genre, passes the SOUNDFIELDS rule: "header\n#deep #house" is one.
      The `#`s are removed, the line is split at the space, and "house"
      matches. */
  lemma LastLineGenreAdmits(post: Post, header: string, first: string, genre: string)
    requires '\n' !in header
    requires '\n' !in first && '#' !in first && ' ' !in first
    requires '\n' !in genre && '#' !in genre && ' ' !in genre
    requires genre in DesiredGenres
    requires post.text == Some(header + "\n#" + first + " #" + genre)
    ensures Admit(LastLineHashtags, post) == Ok(true)
  {
    var line := "#" + first + " #" + genre;
    assert post.text.value == header + "\n" + line;
    assert '\n' !in line;
    LastLineOf(header, line);
    HashtagsRemoved(first, genre);
    TwoWords(first, genre);
    var tokens := [first, genre];
    assert tokens[1] in DesiredGenres;
    assert CheckGenres(tokens);
    SoundfieldsAdmit(post);
  }

  /** `f'vk.com/wall-{group_id}_{post["id"]}'`. */
  function PostUrl(groupId: nat, postId: nat): string
  {
    "vk.com/wall-" + Decimal(groupId) + "_" + Decimal(postId)
  }

  /** Within one group, different posts get different URLs. */
  lemma PostUrlInjective(groupId: nat, p: nat, q: nat)
    requires PostUrl(groupId, p) == PostUrl(groupId, q)
    ensures p == q
  {
    var n := |"vk.com/wall-" + Decimal(groupId) + "_"|;
    assert Decimal(p) == PostUrl(groupId, p)[n..];
    assert Decimal(q) == PostUrl(groupId, q)[n..];
    DecimalInjective(p, q);
  }

  /** The attachments `_process_post` reads: the first repost's when
      `copy_history` is non-empty, otherwise the post's own; `[]` stands for
      "missing or empty". */
  function ChosenAttachments(post: Post): seq<Attachment>
  {
    if post.copyHistory.Some? && |post.copyHistory.value| > 0
    then OrEmpty(post.copyHistory.value[0].attachments)
    else OrEmpty(post.attachments)
  }

  /** The track built from one audio object. */
  function MakeTrack(a: Audio, url: string, composeArtist: string -> string): Track
  {
    Track(composeArtist(a.artist), ComposeFullName(a), a.title, Some(url))
  }

  /** The tracks `_process_post` returns: one per audio attachment. */
  function PostTracks(post: Post, groupId: nat, composeArtist: string -> string): seq<Track>
  {
    MakeTracks(Audios(ChosenAttachments(post)), PostUrl(groupId, post.id), composeArtist)
  }

  /** One track per audio object, in order, all with the same post URL. */
  function MakeTracks(audios: seq<Audio>, url: string, composeArtist: string -> string): seq<Track>
    decreases |audios|
  {
    if |audios| == 0 then []
    else MakeTracks(audios[..|audios| - 1], url, composeArtist) + [MakeTrack(audios[|audios| - 1], url, composeArtist)]
  }

  lemma {:induction false} MakeTracksLength(audios: seq<Audio>, url: string, composeArtist: string -> string)
    ensures |MakeTracks(audios, url, composeArtist)| == |audios|
    decreases |audios|
  {
    if |audios| > 0 {
      MakeTracksLength(audios[..|audios| - 1], url, composeArtist);
    }
  }

  lemma {:induction false} MakeTracksAt(audios: seq<Audio>, url: string, composeArtist: string -> string, i: nat)
    requires i < |audios|
    ensures i < |MakeTracks(audios, url, composeArtist)|
    ensures MakeTracks(audios, url, composeArtist)[i] == MakeTrack(audios[i], url, composeArtist)
    decreases |audios|
  {
    var n := |audios| - 1;
    var init := audios[..n];
    MakeTracksLength(init, url, composeArtist);
    assert MakeTracks(audios, url, composeArtist) == MakeTracks(init, url, composeArtist) + [MakeTrack(audios[n], url, composeArtist)];
    if i < n {
      MakeTracksAt(init, url, composeArtist, i);
      assert init[i] == audios[i];
    }
  }

  lemma MakeTracksEach(audios: seq<Audio>, url: string, composeArtist: string -> string)
    ensures |MakeTracks(audios, url, composeArtist)| == |audios|
    ensures forall i :: 0 <= i < |audios| ==> MakeTracks(audios, url, composeArtist)[i] == MakeTrack(audios[i], url, composeArtist)
  {
    MakeTracksLength(audios, url, composeArtist);
    forall i | 0 <= i < |audios|
      ensures MakeTracks(audios, url, composeArtist)[i] == MakeTrack(audios[i], url, composeArtist)
    {
      MakeTracksAt(audios, url, composeArtist, i);
    }
  }


  /** A post with attachments but none of them audio: a VK playlist. */
  predicate IsPlaylistPost(post: Post)
  {
    ChosenAttachments(post) != [] && Audios(ChosenAttachments(post)) == []
  }

  /** The second result of `_process_post`. */
  function PlaylistMarker(post: Post, groupId: nat): Option<string>
  {
    if IsPlaylistPost(post) then Some(PostUrl(groupId, post.id)) else None
  }

  /** `_process_post` with the controller's own `_compose_full_name` for the
      name (see Findings in the README). */
  method ProcessPost(post: Post, groupId: nat, composeArtist: string -> string)
    returns (tracks: seq<Track>, playlistPostUrl: Option<string>)
    ensures tracks == PostTracks(post, groupId, composeArtist)
    ensures playlistPostUrl == PlaylistMarker(post, groupId)
  {
    tracks := [];
    var attachments: seq<Attachment>;
    if post.copyHistory.Some? && |post.copyHistory.value| > 0 {
      var repost := post.copyHistory.value[0];
      if repost.attachments.None? || |repost.attachments.value| == 0 {
        assert ChosenAttachments(post) == [];
        return [], None;
      }
      attachments := repost.attachments.value;
    } else {
      if post.attachments.None? || |post.attachments.value| == 0 {
        assert ChosenAttachments(post) == [];
        return [], None;
      }
      attachments := post.attachments.value;
    }
    assert attachments == ChosenAttachments(post) && attachments != [];
    var tracksFromPost := Audios(attachments);
    playlistPostUrl := None;
    if |tracksFromPost| == 0 {
      playlistPostUrl := Some(PostUrl(groupId, post.id));
    }
    assert playlistPostUrl == PlaylistMarker(post, groupId);
    var i := 0;
    while i < |tracksFromPost|
      invariant 0 <= i <= |tracksFromPost|
      invariant tracks == MakeTracks(tracksFromPost[..i], PostUrl(groupId, post.id), composeArtist)
    {
      assert tracksFromPost[..i + 1][..i] == tracksFromPost[..i];
      var audio := tracksFromPost[i];
      var artist := composeArtist(audio.artist);
      var fullName := ComposeFullName(audio);
      var alternativeName := audio.title;
      var postUrl := PostUrl(groupId, post.id);
      tracks := tracks + [Track(artist, fullName, alternativeName, Some(postUrl))];
      i := i + 1;
    }
    assert tracksFromPost[..i] == tracksFromPost;
  }

  /** One track per audio attachment of the chosen post, in attachment
      order, built from that audio object and the outer post's URL; the
      marker is set iff attachments exist but none is audio, and is then the
      post's URL. */
  lemma PostTracksShape(post: Post, groupId: nat, composeArtist: string -> string)
    ensures var tracks := PostTracks(post, groupId, composeArtist);
            && |tracks| == |Audios(ChosenAttachments(post))|
            && (forall i :: 0 <= i < |tracks| ==>
                  var a := Audios(ChosenAttachments(post))[i];
                  && tracks[i].artist == composeArtist(a.artist)
                  && tracks[i].name == ComposeFullName(a)
                  && tracks[i].alternativeName == a.title
                  && tracks[i].vkPostUrl == Some(PostUrl(groupId, post.id)))
    ensures var marker := PlaylistMarker(post, groupId);
            && (marker.Some? <==> PostTracks(post, groupId, composeArtist) == [] && ChosenAttachments(post) != [])
            && (marker.Some? ==> marker.value == PostUrl(groupId, post.id))
  {
    MakeTracksEach(Audios(ChosenAttachments(post)), PostUrl(groupId, post.id), composeArtist);
  }

  /** `_process_post` as written: lines 120-121 call `Track.compose_artist_name`
      and `Track.compose_full_name`, which the `Track` class does not define,
      so the first audio attachment raises AttributeError. */
  function ProcessPostAsWritten(post: Post, groupId: nat): Result<(seq<Track>, Option<string>), Failure>
  {
    if Audios(ChosenAttachments(post)) != [] then Err(AttributeMissing("Track.compose_artist_name"))
    else Ok(([], PlaylistMarker(post, groupId)))
  }

  /** As written, `_process_post` fails exactly on the posts that hold
      tracks, and agrees with the corrected `ProcessPost` on all others. */
  lemma ProcessPostAsWrittenFails(post: Post, groupId: nat, composeArtist: string -> string)
    ensures ProcessPostAsWritten(post, groupId).Err? <==> PostTracks(post, groupId, composeArtist) != []
    ensures ProcessPostAsWritten(post, groupId).Ok? ==>
              ProcessPostAsWritten(post, groupId).value == (PostTracks(post, groupId, composeArtist), PlaylistMarker(post, groupId))
  {
  }

  /** With a non-empty `copy_history`, the outer post's attachments play no part. */
  lemma RepostShadowsAttachments(post: Post, outer: Option<seq<Attachment>>, groupId: nat, composeArtist: string -> string)
    requires post.copyHistory.Some? && |post.copyHistory.value| > 0
    ensures PostTracks(post.(attachments := outer), groupId, composeArtist) == PostTracks(post, groupId, composeArtist)
    ensures PlaylistMarker(post.(attachments := outer), groupId) == PlaylistMarker(post, groupId)
  {
  }

  /** What one post contributes to the run. */
  datatype Harvest = Harvest(tracks: seq<Track>, playlistPostUrls: seq<string>)

  const NoHarvest := Harvest([], [])

  function Extend(h: Harvest, more: Harvest): Harvest
  {
    Harvest(h.tracks + more.tracks, h.playlistPostUrls + more.playlistPostUrls)
  }

  lemma ExtendAssociative(a: Harvest, b: Harvest, c: Harvest)
    ensures Extend(Extend(a, b), c) == Extend(a, Extend(b, c))
  {
    assert a.tracks + b.tracks + c.tracks == a.tracks + (b.tracks + c.tracks);
    assert a.playlistPostUrls + b.playlistPostUrls + c.playlistPostUrls
        == a.playlistPostUrls + (b.playlistPostUrls + c.playlistPostUrls);
  }

  /** Run `first`, then `next`, stopping at the first exception. */
  function Chain(first: Result<Harvest, Failure>, next: Result<Harvest, Failure>): Result<Harvest, Failure>
  {
    match first
    case Err(e) => Err(e)
    case Ok(h) =>
      match next
      case Err(e) => Err(e)
      case Ok(more) => Ok(Extend(h, more))
  }

  lemma ChainAssociative(a: Result<Harvest, Failure>, b: Result<Harvest, Failure>, c: Result<Harvest, Failure>)
    ensures Chain(Chain(a, b), c) == Chain(a, Chain(b, c))
  {
    if a.Ok? && b.Ok? && c.Ok? {
      ExtendAssociative(a.value, b.value, c.value);
    }
  }

  /** One iteration of the inner loop of `process_groups`. */
  function PostHarvest(g: Group, post: Post, composeArtist: string -> string): Result<Harvest, Failure>
  {
    match Admit(PolicyOf(g), post)
    case Err(e) => Err(e)
    case Ok(admitted) =>
      if !admitted then Ok(NoHarvest)
      else
        var marker := PlaylistMarker(post, GroupId(g));
        Ok(Harvest(PostTracks(post, GroupId(g), composeArtist), if marker.Some? then [marker.value] else []))
  }

  /** The inner loop over one group's yesterday posts. */
  function IngestPosts(g: Group, posts: seq<Post>, composeArtist: string -> string): Result<Harvest, Failure>
    decreases |posts|
  {
    if |posts| == 0 then Ok(NoHarvest)
    else Chain(IngestPosts(g, posts[..|posts| - 1], composeArtist), PostHarvest(g, posts[|posts| - 1], composeArtist))
  }

  /** One iteration of the outer loop: fetch, keep yesterday's posts, harvest them. */
  function GroupHarvest(g: Group, fetch: string -> Fetch, today: int, composeArtist: string -> string): Result<Harvest, Failure>
  {
    match YesterdayPostsOf(fetch(Domain(g)), Domain(g), today)
    case Err(e) => Err(e)
    case Ok(posts) => IngestPosts(g, posts, composeArtist)
  }

  /** The outer loop over groups. */
  function IngestGroups(gs: seq<Group>, fetch: string -> Fetch, today: int, composeArtist: string -> string): Result<Harvest, Failure>
    decreases |gs|
  {
    if |gs| == 0 then Ok(NoHarvest)
    else Chain(IngestGroups(gs[..|gs| - 1], fetch, today, composeArtist), GroupHarvest(gs[|gs| - 1], fetch, today, composeArtist))
  }

  /** `_get_yesterday_posts`. */
  method GetYesterdayPosts(fetch: string -> Fetch, domain: string, today: int) returns (r: Result<seq<Post>, Failure>)
    ensures r == YesterdayPostsOf(fetch(domain), domain, today)
    ensures r.Ok? ==> forall p :: p in r.value ==> CheckDate(p.day, today)
  {
    var response := fetch(domain);
    if response.status != 200 {
      return Err(FetchFailed(domain, response.status));
    }
    r := Ok(YesterdayPosts(response.posts, today));
  }

  /** `process_groups`: tracks of every group in enum order, then post order,
      and the URLs of posts that hold a VK playlist. */
  method ProcessGroups(fetch: string -> Fetch, today: int, composeArtist: string -> string)
    returns (r: Result<Harvest, Failure>)
    ensures r == IngestGroups(AllGroups, fetch, today, composeArtist)
  {
    var tracks: seq<Track> := [];
    var playlistPostUrls: seq<string> := [];
    var gi := 0;
    while gi < |AllGroups|
      invariant 0 <= gi <= |AllGroups|
      invariant IngestGroups(AllGroups[..gi], fetch, today, composeArtist) == Ok(Harvest(tracks, playlistPostUrls))
    {
      var group := AllGroups[gi];
      IngestGroupsStep(AllGroups, gi, fetch, today, composeArtist);
      var fetched := GetYesterdayPosts(fetch, Domain(group), today);
      if fetched.Err? {
        GroupAborts(gi, fetch, today, composeArtist);
        return Err(fetched.error);
      }
      var yesterdayPosts := fetched.value;
      ghost var before := Harvest(tracks, playlistPostUrls);
      ghost var got := NoHarvest;
      var pi := 0;
      while pi < |yesterdayPosts|
        invariant 0 <= pi <= |yesterdayPosts|
        invariant IngestPosts(group, yesterdayPosts[..pi], composeArtist) == Ok(got)
        invariant Harvest(tracks, playlistPostUrls) == Extend(before, got)
      {
        var post := yesterdayPosts[pi];
        IngestPostsStep(group, yesterdayPosts, pi, composeArtist);
        var found := HarvestPost(group, post, composeArtist);
        if found.Err? {
          PostAborts(group, yesterdayPosts, pi, composeArtist);
          GroupAborts(gi, fetch, today, composeArtist);
          return Err(found.error);
        }
        tracks := tracks + found.value.tracks;
        playlistPostUrls := playlistPostUrls + found.value.playlistPostUrls;
        ExtendAssociative(before, got, found.value);
        got := Extend(got, found.value);
        pi := pi + 1;
      }
      assert yesterdayPosts[..pi] == yesterdayPosts;
      gi := gi + 1;
    }
    assert AllGroups[..gi] == AllGroups;
    r := Ok(Harvest(tracks, playlistPostUrls));
  }

  /** The body of the inner loop of `process_groups` for one post: the
      group's genre rule, then `_process_post`, whose marker URL is appended
      when present. */
  method HarvestPost(group: Group, post: Post, composeArtist: string -> string) returns (r: Result<Harvest, Failure>)
    ensures r == PostHarvest(group, post, composeArtist)
  {
    var admitted := Admit(PolicyOf(group), post);
    if admitted.Err? {
      return Err(admitted.error);
    }
    if !admitted.value {
      return Ok(NoHarvest);
    }
    var foundTracks, playlistPostUrl := ProcessPost(post, GroupId(group), composeArtist);
    var urls := if playlistPostUrl.Some? then [playlistPostUrl.value] else [];
    r := Ok(Harvest(foundTracks, urls));
  }

  lemma IngestPostsStep(g: Group, posts: seq<Post>, pi: nat, composeArtist: string -> string)
    requires pi < |posts|
    ensures IngestPosts(g, posts[..pi + 1], composeArtist)
         == Chain(IngestPosts(g, posts[..pi], composeArtist), PostHarvest(g, posts[pi], composeArtist))
  {
    assert posts[..pi + 1][..pi] == posts[..pi];
  }

  lemma IngestGroupsStep(gs: seq<Group>, gi: nat, fetch: string -> Fetch, today: int, composeArtist: string -> string)
    requires gi < |gs|
    ensures IngestGroups(gs[..gi + 1], fetch, today, composeArtist)
         == Chain(IngestGroups(gs[..gi], fetch, today, composeArtist), GroupHarvest(gs[gi], fetch, today, composeArtist))
  {
    assert gs[..gi + 1][..gi] == gs[..gi];
  }

  /** An exception in post `pi` is the outcome of the group's whole loop. */
  lemma {:induction false} PostAborts(g: Group, posts: seq<Post>, pi: nat, composeArtist: string -> string)
    requires pi < |posts|
    requires IngestPosts(g, posts[..pi + 1], composeArtist).Err?
    ensures IngestPosts(g, posts, composeArtist) == IngestPosts(g, posts[..pi + 1], composeArtist)
    decreases |posts|
  {
    if |posts| - 1 == pi {
      assert posts[..pi + 1] == posts;
    } else {
      var init := posts[..|posts| - 1];
      assert init[..pi + 1] == posts[..pi + 1];
      PostAborts(g, init, pi, composeArtist);
    }
  }

  /** An exception in group `gi` is the outcome of the whole run. */
  lemma GroupAborts(gi: nat, fetch: string -> Fetch, today: int, composeArtist: string -> string)
    requires gi < |AllGroups|
    requires IngestGroups(AllGroups[..gi], fetch, today, composeArtist).Ok?
    requires GroupHarvest(AllGroups[gi], fetch, today, composeArtist).Err?
    ensures IngestGroups(AllGroups, fetch, today, composeArtist) == GroupHarvest(AllGroups[gi], fetch, today, composeArtist)
  {
    var k := gi + 1;
    IngestGroupsStep(AllGroups, gi, fetch, today, composeArtist);
    while k < |AllGroups|
      invariant gi < k <= |AllGroups|
      invariant IngestGroups(AllGroups[..k], fetch, today, composeArtist) == GroupHarvest(AllGroups[gi], fetch, today, composeArtist)
    {
      IngestGroupsStep(AllGroups, k, fetch, today, composeArtist);
      k := k + 1;
    }
    assert AllGroups[..k] == AllGroups;
  }

  /** Harvesting the posts of `a` then those of `b` is harvesting `a + b`:
      output follows post order. */
  lemma {:induction false} IngestPostsAppend(g: Group, a: seq<Post>, b: seq<Post>, composeArtist: string -> string)
    ensures IngestPosts(g, a + b, composeArtist) == Chain(IngestPosts(g, a, composeArtist), IngestPosts(g, b, composeArtist))
    decreases |b|
  {
    if |b| == 0 {
      assert a + b == a;
      var r := IngestPosts(g, a, composeArtist);
      if r.Ok? {
        assert Extend(r.value, NoHarvest) == r.value;
      }
    } else {
      var b' := b[..|b| - 1];
      assert (a + b)[..|a + b| - 1] == a + b';
      assert (a + b)[|a + b| - 1] == b[|b| - 1];
      IngestPostsAppend(g, a, b', composeArtist);
      ChainAssociative(IngestPosts(g, a, composeArtist), IngestPosts(g, b', composeArtist), PostHarvest(g, b[|b| - 1], composeArtist));
    }
  }

  /** Harvesting the groups of `a` then those of `b` is harvesting `a + b`:
      output follows group order. */
  lemma {:induction false} IngestGroupsAppend(a: seq<Group>, b: seq<Group>, fetch: string -> Fetch, today: int, composeArtist: string -> string)
    ensures IngestGroups(a + b, fetch, today, composeArtist)
         == Chain(IngestGroups(a, fetch, today, composeArtist), IngestGroups(b, fetch, today, composeArtist))
    decreases |b|
  {
    if |b| == 0 {
      assert a + b == a;
      var r := IngestGroups(a, fetch, today, composeArtist);
      if r.Ok? {
        assert Extend(r.value, NoHarvest) == r.value;
      }
    } else {
      var b' := b[..|b| - 1];
      assert (a + b)[..|a + b| - 1] == a + b';
      assert (a + b)[|a + b| - 1] == b[|b| - 1];
      IngestGroupsAppend(a, b', fetch, today, composeArtist);
      ChainAssociative(IngestGroups(a, fetch, today, composeArtist), IngestGroups(b', fetch, today, composeArtist),
                       GroupHarvest(b[|b| - 1], fetch, today, composeArtist));
    }
  }

  /** Number of audio attachments over the posts the group's rule admits. */
  function AdmittedAudioCount(g: Group, posts: seq<Post>): nat
    decreases |posts|
  {
    if |posts| == 0 then 0
    else
      var last := posts[|posts| - 1];
      AdmittedAudioCount(g, posts[..|posts| - 1])
      + (if Admit(PolicyOf(g), last) == Ok(true) then |Audios(ChosenAttachments(last))| else 0)
  }

  /** Number of admitted posts that hold a VK playlist instead of audio. */
  function AdmittedPlaylistCount(g: Group, posts: seq<Post>): nat
    decreases |posts|
  {
    if |posts| == 0 then 0
    else
      var last := posts[|posts| - 1];
      AdmittedPlaylistCount(g, posts[..|posts| - 1])
      + (if Admit(PolicyOf(g), last) == Ok(true) && IsPlaylistPost(last) then 1 else 0)
  }

  /** A group yields exactly as many tracks as its admitted posts carry audio
      attachments, and one URL per admitted playlist post. */
  lemma {:induction false} HarvestCounts(g: Group, posts: seq<Post>, composeArtist: string -> string)
    requires IngestPosts(g, posts, composeArtist).Ok?
    ensures |IngestPosts(g, posts, composeArtist).value.tracks| == AdmittedAudioCount(g, posts)
    ensures |IngestPosts(g, posts, composeArtist).value.playlistPostUrls| == AdmittedPlaylistCount(g, posts)
    decreases |posts|
  {
    if |posts| > 0 {
      var last := posts[|posts| - 1];
      HarvestCounts(g, posts[..|posts| - 1], composeArtist);
      PostTracksShape(last, GroupId(g), composeArtist);
    }
  }

  /** Harvesting a group fails exactly when one of its posts breaks the
      group's rule (a missing text, a one-line text). */
  lemma {:induction false} IngestFailsIff(g: Group, posts: seq<Post>, composeArtist: string -> string)
    ensures IngestPosts(g, posts, composeArtist).Err? <==> exists i :: 0 <= i < |posts| && Admit(PolicyOf(g), posts[i]).Err?
    decreases |posts|
  {
    if |posts| > 0 {
      IngestFailsIff(g, posts[..|posts| - 1], composeArtist);
      IngestFailsLast(g, posts, composeArtist);
      BreaksLast(g, posts, posts[..|posts| - 1]);
    }
  }

  /** The harvest of a non-empty list fails iff that of all posts but the
      last fails or the last post breaks the rule. */
  lemma IngestFailsLast(g: Group, posts: seq<Post>, composeArtist: string -> string)
    requires |posts| > 0
    ensures IngestPosts(g, posts, composeArtist).Err?
            <==> IngestPosts(g, posts[..|posts| - 1], composeArtist).Err? || Admit(PolicyOf(g), posts[|posts| - 1]).Err?
  {
    assert PostHarvest(g, posts[|posts| - 1], composeArtist).Err? <==> Admit(PolicyOf(g), posts[|posts| - 1]).Err?;
  }

  /** Some post of a non-empty list breaks the rule iff one of all posts but
      the last does, or the last one does. */
  lemma BreaksLast(g: Group, posts: seq<Post>, init: seq<Post>)
    requires |posts| > 0 && init == posts[..|posts| - 1]
    ensures (exists i :: 0 <= i < |posts| && Admit(PolicyOf(g), posts[i]).Err?)
            <==> (exists i :: 0 <= i < |init| && Admit(PolicyOf(g), init[i]).Err?)
                 || Admit(PolicyOf(g), posts[|posts| - 1]).Err?
  {
    var n := |init|;
    if exists i :: 0 <= i < |posts| && Admit(PolicyOf(g), posts[i]).Err? {
      var i :| 0 <= i < |posts| && Admit(PolicyOf(g), posts[i]).Err?;
      if i < n {
        assert init[i] == posts[i];
      }
    }
    if exists i :: 0 <= i < n && Admit(PolicyOf(g), init[i]).Err? {
      var i :| 0 <= i < n && Admit(PolicyOf(g), init[i]).Err?;
      assert posts[i] == init[i];
    }
  }

  /** Groups without a genre rule never fail once their posts are fetched. */
  lemma UnfilteredNeverFails(g: Group, posts: seq<Post>, composeArtist: string -> string)
    requires PolicyOf(g) == AcceptAll
    ensures IngestPosts(g, posts, composeArtist).Ok?
  {
    IngestFailsIff(g, posts, composeArtist);
  }

  /** `url` is the URL of a post of `posts` that the group's rule admits. */
  predicate FromAdmittedPost(g: Group, posts: seq<Post>, url: string)
  {
    exists j :: 0 <= j < |posts| && Admit(PolicyOf(g), posts[j]) == Ok(true) && url == PostUrl(GroupId(g), posts[j].id)
  }

  /** `url` is the URL of an admitted post that holds a VK playlist. */
  predicate FromAdmittedPlaylistPost(g: Group, posts: seq<Post>, url: string)
  {
    exists j :: 0 <= j < |posts| && Admit(PolicyOf(g), posts[j]) == Ok(true) && IsPlaylistPost(posts[j])
      && url == PostUrl(GroupId(g), posts[j].id)
  }

  /** What one post contributes, read off without re-deriving the genre rule. */
  lemma PostHarvestShape(g: Group, post: Post, composeArtist: string -> string)
    requires PostHarvest(g, post, composeArtist).Ok?
    ensures var x := PostHarvest(g, post, composeArtist).value;
            && (x.tracks != [] || x.playlistPostUrls != [] ==> Admit(PolicyOf(g), post) == Ok(true))
            && (forall k :: 0 <= k < |x.tracks| ==> x.tracks[k].vkPostUrl == Some(PostUrl(GroupId(g), post.id)))
            && (x.playlistPostUrls != [] ==> IsPlaylistPost(post) && x.playlistPostUrls == [PostUrl(GroupId(g), post.id)])
  {
    PostTracksShape(post, GroupId(g), composeArtist);
  }

  /** A successful harvest of a non-empty list is the harvest of all posts
      but the last, extended by the last post's contribution. */
  lemma IngestPostsLast(g: Group, posts: seq<Post>, composeArtist: string -> string)
    requires |posts| > 0 && IngestPosts(g, posts, composeArtist).Ok?
    ensures IngestPosts(g, posts[..|posts| - 1], composeArtist).Ok?
    ensures PostHarvest(g, posts[|posts| - 1], composeArtist).Ok?
    ensures IngestPosts(g, posts, composeArtist).value
            == Extend(IngestPosts(g, posts[..|posts| - 1], composeArtist).value, PostHarvest(g, posts[|posts| - 1], composeArtist).value)
  {
  }

  lemma FromAdmittedPostGrows(g: Group, init: seq<Post>, post: Post, url: string)
    requires FromAdmittedPost(g, init, url) || (Admit(PolicyOf(g), post) == Ok(true) && url == PostUrl(GroupId(g), post.id))
    ensures FromAdmittedPost(g, init + [post], url)
  {
    var all := init + [post];
    if FromAdmittedPost(g, init, url) {
      var j :| 0 <= j < |init| && Admit(PolicyOf(g), init[j]) == Ok(true) && url == PostUrl(GroupId(g), init[j].id);
      assert all[j] == init[j];
    } else {
      assert all[|init|] == post;
    }
  }

  lemma FromAdmittedPlaylistPostGrows(g: Group, init: seq<Post>, post: Post, url: string)
    requires FromAdmittedPlaylistPost(g, init, url)
             || (Admit(PolicyOf(g), post) == Ok(true) && IsPlaylistPost(post) && url == PostUrl(GroupId(g), post.id))
    ensures FromAdmittedPlaylistPost(g, init + [post], url)
  {
    var all := init + [post];
    if FromAdmittedPlaylistPost(g, init, url) {
      var j :| 0 <= j < |init| && Admit(PolicyOf(g), init[j]) == Ok(true) && IsPlaylistPost(init[j])
               && url == PostUrl(GroupId(g), init[j].id);
      assert all[j] == init[j];
    } else {
      assert all[|init|] == post;
    }
  }

  /** Provenance of tracks survives appending one post's contribution. */
  lemma TrackProvenanceStep(g: Group, init: seq<Post>, post: Post, h0: Harvest, x: Harvest)
    requires forall k :: 0 <= k < |h0.tracks| ==>
               h0.tracks[k].vkPostUrl.Some? && FromAdmittedPost(g, init, h0.tracks[k].vkPostUrl.value)
    requires x.tracks != [] ==> Admit(PolicyOf(g), post) == Ok(true)
    requires forall k :: 0 <= k < |x.tracks| ==> x.tracks[k].vkPostUrl == Some(PostUrl(GroupId(g), post.id))
    ensures forall k :: 0 <= k < |Extend(h0, x).tracks| ==>
              Extend(h0, x).tracks[k].vkPostUrl.Some? && FromAdmittedPost(g, init + [post], Extend(h0, x).tracks[k].vkPostUrl.value)
  {
    var h := Extend(h0, x);
    forall k | 0 <= k < |h.tracks|
      ensures h.tracks[k].vkPostUrl.Some? && FromAdmittedPost(g, init + [post], h.tracks[k].vkPostUrl.value)
    {
      if k < |h0.tracks| {
        assert h.tracks[k] == h0.tracks[k];
      } else {
        assert h.tracks[k] == x.tracks[k - |h0.tracks|];
      }
      FromAdmittedPostGrows(g, init, post, h.tracks[k].vkPostUrl.value);
    }
  }

  /** Every harvested track comes from an admitted post of the group and
      carries that post's URL. */
  lemma {:induction false} TrackProvenance(g: Group, posts: seq<Post>, composeArtist: string -> string, h: Harvest)
    requires IngestPosts(g, posts, composeArtist) == Ok(h)
    ensures forall k :: 0 <= k < |h.tracks| ==>
              h.tracks[k].vkPostUrl.Some? && FromAdmittedPost(g, posts, h.tracks[k].vkPostUrl.value)
    decreases |posts|
  {
    if |posts| > 0 {
      var n := |posts| - 1;
      var init := posts[..n];
      assert posts == init + [posts[n]];
      IngestPostsLast(g, posts, composeArtist);
      var h0 := IngestPosts(g, init, composeArtist).value;
      var x := PostHarvest(g, posts[n], composeArtist).value;
      TrackProvenance(g, init, composeArtist, h0);
      PostHarvestShape(g, posts[n], composeArtist);
      TrackProvenanceStep(g, init, posts[n], h0, x);
    }
  }

  /** Provenance of playlist URLs survives appending one post's contribution. */
  lemma PlaylistUrlProvenanceStep(g: Group, init: seq<Post>, post: Post, h0: Harvest, x: Harvest)
    requires forall k :: 0 <= k < |h0.playlistPostUrls| ==> FromAdmittedPlaylistPost(g, init, h0.playlistPostUrls[k])
    requires x.playlistPostUrls != [] ==> Admit(PolicyOf(g), post) == Ok(true)
    requires x.playlistPostUrls != [] ==> IsPlaylistPost(post) && x.playlistPostUrls == [PostUrl(GroupId(g), post.id)]
    ensures forall k :: 0 <= k < |Extend(h0, x).playlistPostUrls| ==>
              FromAdmittedPlaylistPost(g, init + [post], Extend(h0, x).playlistPostUrls[k])
  {
    var h := Extend(h0, x);
    forall k | 0 <= k < |h.playlistPostUrls|
      ensures FromAdmittedPlaylistPost(g, init + [post], h.playlistPostUrls[k])
    {
      if k < |h0.playlistPostUrls| {
        assert h.playlistPostUrls[k] == h0.playlistPostUrls[k];
      } else {
        assert h.playlistPostUrls[k] == x.playlistPostUrls[k - |h0.playlistPostUrls|];
      }
      FromAdmittedPlaylistPostGrows(g, init, post, h.playlistPostUrls[k]);
    }
  }

  /** Every "unparseable playlist" URL comes from an admitted post of the
      group that has attachments but no audio, and is that post's URL. */
  lemma {:induction false} PlaylistUrlProvenance(g: Group, posts: seq<Post>, composeArtist: string -> string, h: Harvest)
    requires IngestPosts(g, posts, composeArtist) == Ok(h)
    ensures forall k :: 0 <= k < |h.playlistPostUrls| ==> FromAdmittedPlaylistPost(g, posts, h.playlistPostUrls[k])
    decreases |posts|
  {
    if |posts| > 0 {
      var n := |posts| - 1;
      var init := posts[..n];
      assert posts == init + [posts[n]];
      IngestPostsLast(g, posts, composeArtist);
      var h0 := IngestPosts(g, init, composeArtist).value;
      var x := PostHarvest(g, posts[n], composeArtist).value;
      PlaylistUrlProvenance(g, init, composeArtist, h0);
      PostHarvestShape(g, posts[n], composeArtist);
      PlaylistUrlProvenanceStep(g, init, posts[n], h0, x);
    }
  }

  /** Every track of a group was published yesterday in that group's feed
      and passed the group's rule. */
  lemma GroupHarvestFromYesterday(g: Group, fetch: string -> Fetch, today: int, composeArtist: string -> string, h: Harvest)
    requires GroupHarvest(g, fetch, today, composeArtist) == Ok(h)
    ensures forall k :: 0 <= k < |h.tracks| ==>
              exists p :: p in fetch(Domain(g)).posts && CheckDate(p.day, today) && Admit(PolicyOf(g), p) == Ok(true)
                && h.tracks[k].vkPostUrl == Some(PostUrl(GroupId(g), p.id))
  {
    var posts := YesterdayPosts(fetch(Domain(g)).posts, today);
    TrackProvenance(g, posts, composeArtist, h);
    forall k | 0 <= k < |h.tracks|
      ensures exists p :: p in fetch(Domain(g)).posts && CheckDate(p.day, today) && Admit(PolicyOf(g), p) == Ok(true)
                && h.tracks[k].vkPostUrl == Some(PostUrl(GroupId(g), p.id))
    {
      assert FromAdmittedPost(g, posts, h.tracks[k].vkPostUrl.value);
      var j :| 0 <= j < |posts| && Admit(PolicyOf(g), posts[j]) == Ok(true)
               && h.tracks[k].vkPostUrl.value == PostUrl(GroupId(g), posts[j].id);
      assert posts[j] in posts;
    }
  }
}
