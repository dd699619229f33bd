/** What both VK controllers (core/vk_api_controller.py and vk_api_controller.py)
    read from the `wall.get` response: posts, their attachments and reposts,
    the "yesterday" filter and the composed track name. */
module VkPosts {
  import opened Wrappers
  import opened PyStr

  /** The `audio` object of an attachment; `subtitle` may be absent. */
  datatype Audio = Audio(artist: string, title: string, subtitle: Option<string>)

  /** The `type` of an attachment that is not an audio track. */
  type OtherKind = k: string | k != "audio" witness "photo"

  /** An attachment whose `type` is `audio`, or one of any other kind. */
  datatype Attachment = AudioAttachment(audio: Audio) | OtherAttachment(kind: OtherKind)

  /** The first entry of `copy_history`: the reposted post. */
  datatype Repost = Repost(attachments: Option<seq<Attachment>>)

  /** A wall post. `day` is the local calendar day of its `date` timestamp;
      missing keys are `None`. */
  datatype Post = Post(
    id: nat,
    day: int,
    text: Option<string>,
    attachments: Option<seq<Attachment>>,
    copyHistory: Option<seq<Repost>>)

  /** The answer of the `wall.get` request for one group. */
  datatype Fetch = Fetch(status: int, posts: seq<Post>)

  /** The exceptions the VK side can raise. */
  datatype Failure =
    | FetchFailed(domain: string, status: int)   // the `assert` on the HTTP status
    | MissingKey(key: string)                    // KeyError
    | IndexOutOfRange                            // IndexError
    | AttributeMissing(name: string)             // AttributeError
    | Unhashable                                 // TypeError from `set(...)`

  /** The genres a post must mention to be harvested. */
  const DesiredGenres: set<string> := {"house", "funk", "disco", "soul"}

  /** An optional list that is absent or empty reads as `[]`. */
  function OrEmpty<T>(s: Option<seq<T>>): seq<T>
  {
    if s.Some? then s.value else []
  }

  /** `_compose_full_name`: the title, followed by a space and the subtitle
      when the subtitle is present and non-empty. */
  function ComposeFullName(a: Audio): string
  {
    if Truthy(a.subtitle) then a.title + " " + a.subtitle.value else a.title
  }

  /** The full name starts with the title; the subtitle follows after one
      space exactly when it is present and non-empty. */
  lemma ComposeFullNameShape(a: Audio)
    ensures var r := ComposeFullName(a);
            && |r| >= |a.title| && r[..|a.title|] == a.title
            && (|r| == |a.title| <==> !Truthy(a.subtitle))
            && (Truthy(a.subtitle) ==> r[|a.title|] == ' ' && r[|a.title| + 1..] == a.subtitle.value)
  {
    var r := ComposeFullName(a);
    if Truthy(a.subtitle) {
      assert r == a.title + ([' '] + a.subtitle.value);
    }
  }

  /** The audio objects of the `audio`-typed attachments, in attachment order. */
  function Audios(atts: seq<Attachment>): seq<Audio>
    decreases |atts|
  {
    if |atts| == 0 then []
    else
      var last := atts[|atts| - 1];
      if last.AudioAttachment? then Audios(atts[..|atts| - 1]) + [last.audio] else Audios(atts[..|atts| - 1])
  }

  /** The selection keeps exactly the audio objects of `audio`-typed
      attachments, and never more objects than there are attachments. */
  lemma {:induction false} AudiosSelectsAudio(atts: seq<Attachment>)
    ensures |Audios(atts)| <= |atts|
    ensures forall a :: a in Audios(atts) <==> AudioAttachment(a) in atts
    decreases |atts|
  {
    if |atts| > 0 {
      var init := atts[..|atts| - 1];
      AudiosSelectsAudio(init);
      assert atts == init + [atts[|atts| - 1]];
    }
  }

  /** Selecting audio attachments commutes with concatenation: order is kept. */
  lemma {:induction false} AudiosAppend(a: seq<Attachment>, b: seq<Attachment>)
    ensures Audios(a + b) == Audios(a) + Audios(b)
    decreases |b|
  {
    if |b| > 0 {
      var b' := b[..|b| - 1];
      assert (a + b)[..|a + b| - 1] == a + b';
      AudiosAppend(a, b');
    } else {
      assert a + b == a;
    }
  }

  /** `_check_date`: the post was published on the day before `today`. */
  predicate CheckDate(postDay: int, today: int)
  {
    postDay == today - 1
  }

  /** The comprehension of `_get_yesterday_posts`: the posts of yesterday, in feed order. */
  function YesterdayPosts(posts: seq<Post>, today: int): (r: seq<Post>)
    ensures |r| <= |posts|
    ensures forall p :: p in r <==> p in posts && CheckDate(p.day, today)
    decreases |posts|
  {
    if |posts| == 0 then []
    else
      var init := posts[..|posts| - 1];
      var last := posts[|posts| - 1];
      assert posts == init + [last];
      if CheckDate(last.day, today) then YesterdayPosts(init, today) + [last]
      else YesterdayPosts(init, today)
  }

  /** The filter keeps feed order: filtering `a + b` is filtering `a`, then `b`. */
  lemma {:induction false} YesterdayPostsAppend(a: seq<Post>, b: seq<Post>, today: int)
    ensures YesterdayPosts(a + b, today) == YesterdayPosts(a, today) + YesterdayPosts(b, today)
    decreases |b|
  {
    if |b| > 0 {
      var b' := b[..|b| - 1];
      assert (a + b)[..|a + b| - 1] == a + b';
      YesterdayPostsAppend(a, b', today);
    } else {
      assert a + b == a;
    }
  }

  /** `_get_yesterday_posts`: a failed request aborts, otherwise the feed is filtered. */
  function YesterdayPostsOf(response: Fetch, domain: string, today: int): (r: Result<seq<Post>, Failure>)
    ensures r.Err? <==> response.status != 200
    ensures r.Ok? ==> r.value == YesterdayPosts(response.posts, today)
  {
    if response.status != 200 then Err(FetchFailed(domain, response.status))
    else Ok(YesterdayPosts(response.posts, today))
  }
}
