/** The earlier VK controller (vk_api_controller.py, with the record of
    model.py): no repost handling, no post URL, substring genre matching,
    one method per group, and a `process_groups` that keeps Radiant Sound
    only and ends in `set(...)`. */
module VkLegacy {
  import opened Wrappers
  import opened PyStr
  import opened Seqs
  import opened VkPosts
  import VkIngest

  /** The four groups of the earlier `Groups` enum. */
  datatype Group = Jazzve | Soundfields | Glbdom | RadiantSound

  function Domain(g: Group): string
  {
    match g
    case Jazzve => "jazzve"
    case Soundfields => "soundfields"
    case Glbdom => "glbdom"
    case RadiantSound => "radiant_sound_home"
  }

  /** The earlier `Track` record: no separate name, an optional raw title and
      an optional post URL, both defaulting to `None`. */
  datatype Track = Track(artist: string, fullName: string, alternativeName: Option<string>, postUrl: Option<string>)

  /** The track built from one audio object: raw artist, no URL. */
  function MakeTrack(a: Audio): Track
  {
    Track(a.artist, ComposeFullName(a), Some(a.title), None)
  }

  /** What `_process_post` returns: one track per audio attachment of the
      post itself; `post['attachments']` raises when the key is missing. */
  function PostTracks(post: Post): Result<seq<Track>, Failure>
  {
    if post.attachments.None? then Err(MissingKey("attachments"))
    else Ok(MakeTracks(Audios(post.attachments.value)))
  }

  /** One track per audio object, in order. */
  function MakeTracks(audios: seq<Audio>): seq<Track>
    decreases |audios|
  {
    if |audios| == 0 then [] else MakeTracks(audios[..|audios| - 1]) + [MakeTrack(audios[|audios| - 1])]
  }

  /** A post with attachments yields one track per audio attachment, in
      attachment order, carrying the raw artist, the composed full name,
      the raw title and no URL. */
  lemma PostTracksShape(post: Post)
    requires post.attachments.Some?
    ensures var audios := Audios(post.attachments.value);
            && PostTracks(post).Ok?
            && |PostTracks(post).value| == |audios|
            && forall i :: 0 <= i < |audios| ==>
                 var t := PostTracks(post).value[i];
                 && t.artist == audios[i].artist
                 && t.fullName == ComposeFullName(audios[i])
                 && t.alternativeName == Some(audios[i].title)
                 && t.postUrl.None?
  {
    MakeTracksEach(Audios(post.attachments.value));
  }

  lemma {:induction false} MakeTracksLength(audios: seq<Audio>)
    ensures |MakeTracks(audios)| == |audios|
    decreases |audios|
  {
    if |audios| > 0 {
      MakeTracksLength(audios[..|audios| - 1]);
    }
  }

  lemma {:induction false} MakeTracksAt(audios: seq<Audio>, i: nat)
    requires i < |audios|
    ensures i < |MakeTracks(audios)|
    ensures MakeTracks(audios)[i] == MakeTrack(audios[i])
    decreases |audios|
  {
    var n := |audios| - 1;
    var init := audios[..n];
    MakeTracksLength(init);
    assert MakeTracks(audios) == MakeTracks(init) + [MakeTrack(audios[n])];
    if i < n {
      MakeTracksAt(init, i);
      assert init[i] == audios[i];
    }
  }

  lemma MakeTracksEach(audios: seq<Audio>)
    ensures |MakeTracks(audios)| == |audios|
    ensures forall i :: 0 <= i < |audios| ==> MakeTracks(audios)[i] == MakeTrack(audios[i])
  {
    MakeTracksLength(audios);
    forall i | 0 <= i < |audios|
      ensures MakeTracks(audios)[i] == MakeTrack(audios[i])
    {
      MakeTracksAt(audios, i);
    }
  }



  /** `_process_post`: the comprehension, then a loop that appends one track
      per audio object. */
  method ProcessPost(post: Post) returns (r: Result<seq<Track>, Failure>)
    ensures r == PostTracks(post)
    ensures r.Err? <==> post.attachments.None?
  {
    if post.attachments.None? {
      return Err(MissingKey("attachments"));
    }
    var tracksFromPost := Audios(post.attachments.value);
    var tracks: seq<Track> := [];
    var i := 0;
    while i < |tracksFromPost|
      invariant 0 <= i <= |tracksFromPost|
      invariant tracks == MakeTracks(tracksFromPost[..i])
    {
      assert tracksFromPost[..i + 1][..i] == tracksFromPost[..i];
      var trackFromPost := tracksFromPost[i];
      var artist := trackFromPost.artist;
      var fullName := ComposeFullName(trackFromPost);
      var alternativeName := trackFromPost.title;
      tracks := tracks + [Track(artist, fullName, Some(alternativeName), None)];
      i := i + 1;
    }
    assert tracksFromPost[..i] == tracksFromPost;
    r := Ok(tracks);
  }

  /** A token mentions a desired genre when one occurs inside it. */
  predicate MentionsGenre(token: string)
  {
    exists d | d in DesiredGenres :: Contains(token, d)
  }

  /** Some token mentions a desired genre. */
  predicate SomeTokenMentionsGenre(genres: seq<string>)
  {
    exists i :: 0 <= i < |genres| && MentionsGenre(genres[i])
  }

  /** `_check_on_genres_condition`: a nested loop with an early return over
      tokens and desired genres, true on the first desired genre that is a
      substring of a token. */
  method CheckOnGenresCondition(genres: seq<string>) returns (b: bool)
    ensures b <==> SomeTokenMentionsGenre(genres)
  {
    var i := 0;
    while i < |genres|
      invariant 0 <= i <= |genres|
      invariant forall j :: 0 <= j < i ==> !MentionsGenre(genres[j])
    {
      var genre := genres[i];
      var remaining := DesiredGenres;
      while remaining != {}
        invariant remaining <= DesiredGenres
        invariant forall d :: d in DesiredGenres && d !in remaining ==> !Contains(genre, d)
        decreases |remaining|
      {
        var desiredGenre :| desiredGenre in remaining;
        if Contains(genre, desiredGenre) {
          return true;
        }
        remaining := remaining - {desiredGenre};
      }
      i := i + 1;
    }
    return false;
  }

  /** A token equal to a desired genre also contains it, so every post the
      current exact check admits, the substring check admits too. */
  lemma ExactMatchImpliesSubstring(tokens: seq<string>)
    ensures VkIngest.CheckGenres(tokens) ==> SomeTokenMentionsGenre(tokens)
  {
    if VkIngest.CheckGenres(tokens) {
      var i :| 0 <= i < |tokens| && tokens[i] in DesiredGenres;
      assert Contains(tokens[i], tokens[i]);
    }
  }

  /** The substring check is strictly looser: "funky" passes it and fails
      the exact check. */
  lemma SubstringLooserThanExact()
    ensures SomeTokenMentionsGenre(["funky"]) && !VkIngest.CheckGenres(["funky"])
  {
    assert Contains("funky", "funk");
    assert MentionsGenre(["funky"][0]);
  }

  /** The genre test at the head of the loop body of `_process_soundfields`
      and `_process_radiant_sound`; the other two groups have none.
      `post['text']` raises when the key is missing. */
  function Admit(g: Group, post: Post): Result<bool, Failure>
  {
    match g
    case Soundfields =>
      if post.text.None? then Err(MissingKey("text"))
      else Ok(SomeTokenMentionsGenre(Split(RemoveAll(Last(Split(post.text.value, '\n')), '#'), ' ')))
    case RadiantSound =>
      if post.text.None? then Err(MissingKey("text"))
      else
        var lines := Split(post.text.value, '\n');
        if |lines| < 2 then Err(IndexOutOfRange) else Ok(SomeTokenMentionsGenre(Split(lines[1], '/')))
    case _ => Ok(true)
  }

  /** The genre test as the loop body computes it, calling the nested loop. */
  method AdmitPost(g: Group, post: Post) returns (r: Result<bool, Failure>)
    ensures r == Admit(g, post)
    ensures r.Err? ==> g == Soundfields || g == RadiantSound
  {
    match g {
      case Soundfields =>
        if post.text.None? {
          return Err(MissingKey("text"));
        }
        var genres := Split(RemoveAll(Last(Split(post.text.value, '\n')), '#'), ' ');
        var b := CheckOnGenresCondition(genres);
        r := Ok(b);
      case RadiantSound =>
        if post.text.None? {
          return Err(MissingKey("text"));
        }
        var lines := Split(post.text.value, '\n');
        if |lines| < 2 {
          return Err(IndexOutOfRange);
        }
        var b := CheckOnGenresCondition(Split(lines[1], '/'));
        r := Ok(b);
      case _ =>
        r := Ok(true);
    }
  }

  /** Unlike the current rule, which skips a post with empty text, the
      earlier Radiant Sound rule raises on it. */
  lemma EmptyTextRaises(post: Post)
    requires post.text == Some("")
    ensures Admit(RadiantSound, post) == Err(IndexOutOfRange)
    ensures VkIngest.Admit(VkIngest.SecondLineGenres, post) == Ok(false)
  {
    assert Split("", '\n') == [""];
  }

  /** One iteration of the loop of a `_process_*` method. */
  function PostHarvest(g: Group, post: Post): Result<seq<Track>, Failure>
  {
    match Admit(g, post)
    case Err(e) => Err(e)
    case Ok(admitted) => if admitted then PostTracks(post) else Ok([])
  }

  /** Run `first`, then `next`, appending their tracks; the first exception wins. */
  function Then(first: Result<seq<Track>, Failure>, next: Result<seq<Track>, Failure>): Result<seq<Track>, Failure>
  {
    match first
    case Err(e) => Err(e)
    case Ok(ts) =>
      match next
      case Err(e) => Err(e)
      case Ok(more) => Ok(ts + more)
  }

  lemma ThenAssociative(a: Result<seq<Track>, Failure>, b: Result<seq<Track>, Failure>, c: Result<seq<Track>, Failure>)
    ensures Then(Then(a, b), c) == Then(a, Then(b, c))
  {
    if a.Ok? && b.Ok? && c.Ok? {
      assert (a.value + b.value) + c.value == a.value + (b.value + c.value);
    }
  }

  /** The loop of a `_process_*` method over its yesterday posts. */
  function CollectTracks(g: Group, posts: seq<Post>): Result<seq<Track>, Failure>
    decreases |posts|
  {
    if |posts| == 0 then Ok([])
    else Then(CollectTracks(g, posts[..|posts| - 1]), PostHarvest(g, posts[|posts| - 1]))
  }

  /** Collecting from `a + b` is collecting from `a`, then from `b`: the
      tracks follow post order. */
  lemma {:induction false} CollectTracksAppend(g: Group, a: seq<Post>, b: seq<Post>)
    ensures CollectTracks(g, a + b) == Then(CollectTracks(g, a), CollectTracks(g, b))
    decreases |b|
  {
    if |b| == 0 {
      assert a + b == a;
      var r := CollectTracks(g, a);
      if r.Ok? {
        assert r.value + [] == r.value;
      }
    } else {
      var b' := b[..|b| - 1];
      assert (a + b)[..|a + b| - 1] == a + b';
      assert (a + b)[|a + b| - 1] == b[|b| - 1];
      CollectTracksAppend(g, a, b');
      ThenAssociative(CollectTracks(g, a), CollectTracks(g, b'), PostHarvest(g, b[|b| - 1]));
    }
  }

  /** `_process_soundfields`, `_process_glbdom`, `_process_radiant_sound` or
      `_process_jazzve`: fetch the group's yesterday posts and harvest them. */
  function GroupTracks(g: Group, fetch: string -> Fetch, today: int): Result<seq<Track>, Failure>
  {
    match YesterdayPostsOf(fetch(Domain(g)), Domain(g), today)
    case Err(e) => Err(e)
    case Ok(posts) => CollectTracks(g, posts)
  }

  lemma CollectStep(g: Group, posts: seq<Post>, i: nat)
    requires i < |posts|
    ensures CollectTracks(g, posts[..i + 1]) == Then(CollectTracks(g, posts[..i]), PostHarvest(g, posts[i]))
  {
    assert posts[..i + 1][..i] == posts[..i];
  }

  /** An exception in a post ends the loop: later posts are not looked at. */
  lemma {:induction false} CollectAborts(g: Group, posts: seq<Post>, n: nat)
    requires n <= |posts| && CollectTracks(g, posts[..n]).Err?
    ensures CollectTracks(g, posts) == CollectTracks(g, posts[..n])
    decreases |posts|
  {
    if n < |posts| {
      var init := posts[..|posts| - 1];
      assert init[..n] == posts[..n];
      CollectAborts(g, init, n);
    } else {
      assert posts[..n] == posts;
    }
  }

  /** The loop body of a `_process_*` method: the genre test, then
      `_process_post` for an admitted post. */
  method HarvestPost(g: Group, post: Post) returns (r: Result<seq<Track>, Failure>)
    ensures r == PostHarvest(g, post)
  {
    var admitted := AdmitPost(g, post);
    if admitted.Err? {
      return Err(admitted.error);
    }
    if !admitted.value {
      return Ok([]);
    }
    r := ProcessPost(post);
  }

  /** The four `_process_*` methods, which differ only in the group's domain
      and genre test. */
  method ProcessGroup(g: Group, fetch: string -> Fetch, today: int) returns (r: Result<seq<Track>, Failure>)
    ensures r == GroupTracks(g, fetch, today)
  {
    var fetched := VkIngest.GetYesterdayPosts(fetch, Domain(g), today);
    if fetched.Err? {
      return Err(fetched.error);
    }
    var yesterdayPosts := fetched.value;
    var tracks: seq<Track> := [];
    var i := 0;
    while i < |yesterdayPosts|
      invariant 0 <= i <= |yesterdayPosts|
      invariant CollectTracks(g, yesterdayPosts[..i]) == Ok(tracks)
    {
      var post := yesterdayPosts[i];
      CollectStep(g, yesterdayPosts, i);
      var found := HarvestPost(g, post);
      if found.Err? {
        CollectAborts(g, yesterdayPosts, i + 1);
        return Err(found.error);
      }
      tracks := tracks + found.value;
      i := i + 1;
    }
    assert yesterdayPosts[..i] == yesterdayPosts;
    r := Ok(tracks);
  }

  /** Number of audio attachments over the posts. */
  function AudioTotal(posts: seq<Post>): nat
    decreases |posts|
  {
    if |posts| == 0 then 0
    else AudioTotal(posts[..|posts| - 1]) + |Audios(OrEmpty(posts[|posts| - 1].attachments))|
  }

  /** The tracks of every audio attachment of every post, post by post. */
  function AllTracks(posts: seq<Post>): seq<Track>
    decreases |posts|
  {
    if |posts| == 0 then []
    else AllTracks(posts[..|posts| - 1]) + MakeTracks(Audios(OrEmpty(posts[|posts| - 1].attachments)))
  }

  /** Under GLBDOM and JAZZVE one post fails exactly when it has no
      `attachments` key, and otherwise yields one track per audio attachment. */
  lemma UnfilteredPost(g: Group, post: Post)
    requires g == Glbdom || g == Jazzve
    ensures PostHarvest(g, post).Err? <==> post.attachments.None?
    ensures PostHarvest(g, post).Ok? ==> PostHarvest(g, post).value == MakeTracks(Audios(OrEmpty(post.attachments)))
    ensures PostHarvest(g, post).Ok? ==> |PostHarvest(g, post).value| == |Audios(OrEmpty(post.attachments))|
  {
    if post.attachments.Some? {
      MakeTracksLength(Audios(post.attachments.value));
    }
  }

  /** GLBDOM and JAZZVE keep every post: the harvest fails exactly when some
      post has no `attachments` key, and otherwise holds the tracks of every
      audio attachment of every post, in post and attachment order. */
  lemma {:induction false} UnfilteredKeepsEveryAudio(g: Group, posts: seq<Post>)
    requires g == Glbdom || g == Jazzve
    ensures CollectTracks(g, posts).Err? <==> exists i :: 0 <= i < |posts| && posts[i].attachments.None?
    ensures CollectTracks(g, posts).Ok? ==> CollectTracks(g, posts).value == AllTracks(posts)
    ensures CollectTracks(g, posts).Ok? ==> |CollectTracks(g, posts).value| == AudioTotal(posts)
    decreases |posts|
  {
    if |posts| > 0 {
      var n := |posts| - 1;
      var init := posts[..n];
      var last := posts[n];
      UnfilteredKeepsEveryAudio(g, init);
      UnfilteredPost(g, last);
      assert CollectTracks(g, posts) == Then(CollectTracks(g, init), PostHarvest(g, last));
      if CollectTracks(g, init).Err? {
        var i :| 0 <= i < n && init[i].attachments.None?;
        assert posts[i] == init[i];
      } else if last.attachments.Some? {
        forall i | 0 <= i < |posts|
          ensures posts[i].attachments.Some?
        {
          if i < n {
            assert posts[i] == init[i];
          }
        }
      }
    }
  }

  /** `process_groups` as written: only `_process_radiant_sound` runs, and
      `set(posts)` raises TypeError on a non-empty list, since the `Track`
      dataclass compares by value and so is unhashable. */
  function ProcessGroupsAsWritten(fetch: string -> Fetch, today: int): Result<seq<Track>, Failure>
  {
    match GroupTracks(RadiantSound, fetch, today)
    case Err(e) => Err(e)
    case Ok(posts) => if posts == [] then Ok([]) else Err(Unhashable)
  }

  /** `process_groups`: extend an empty list with the Radiant Sound tracks,
      then rebind it through `set`. */
  method ProcessGroups(fetch: string -> Fetch, today: int) returns (r: Result<seq<Track>, Failure>)
    ensures r == ProcessGroupsAsWritten(fetch, today)
  {
    var posts: seq<Track> := [];
    var found := ProcessGroup(RadiantSound, fetch, today);
    if found.Err? {
      return Err(found.error);
    }
    posts := posts + found.value;
    if posts != [] {
      return Err(Unhashable);
    }
    r := Ok(posts);
  }

  /** As written, `process_groups` never returns a track: it returns `[]`
      or raises, and it raises TypeError exactly when Radiant Sound yields
      tracks. It reads no group but Radiant Sound. */
  lemma ProcessGroupsNeverYieldsTracks(fetch: string -> Fetch, other: string -> Fetch, today: int)
    requires fetch(Domain(RadiantSound)) == other(Domain(RadiantSound))
    ensures ProcessGroupsAsWritten(fetch, today).Ok? ==> ProcessGroupsAsWritten(fetch, today).value == []
    ensures GroupTracks(RadiantSound, fetch, today).Ok? ==>
              (ProcessGroupsAsWritten(fetch, today) == Err(Unhashable) <==> GroupTracks(RadiantSound, fetch, today).value != [])
    ensures GroupTracks(RadiantSound, fetch, today).Err? ==> ProcessGroupsAsWritten(fetch, today) == GroupTracks(RadiantSound, fetch, today)
    ensures ProcessGroupsAsWritten(fetch, today) == ProcessGroupsAsWritten(other, today)
  {
  }

  /** What the "Remove duplicates" step evidently intends: the Radiant Sound
      tracks without repeats, first occurrences kept in order. */
  function DistinctRadiantTracks(fetch: string -> Fetch, today: int): (r: Result<seq<Track>, Failure>)
    ensures r.Err? <==> GroupTracks(RadiantSound, fetch, today).Err?
    ensures r.Ok? ==> NoDup(r.value)
    ensures r.Ok? ==> forall t :: t in r.value <==> t in GroupTracks(RadiantSound, fetch, today).value
  {
    match GroupTracks(RadiantSound, fetch, today)
    case Err(e) => Err(e)
    case Ok(tracks) => Ok(Dedup(tracks))
  }
}
