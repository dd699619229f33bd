/** The `Track` record of the current pipeline (model/track.py) and its three
    derived strings. A Dafny datatype value cannot be changed, so reading a
    derived string leaves the record's four fields as they were, as the
    read-only properties of the Python class do. */
module TrackModel {
  import opened Wrappers

  /** One track reference found in a VK post; `vkPostUrl` defaults to `None`. */
  datatype Track = Track(artist: string, name: string, alternativeName: string, vkPostUrl: Option<string>)

  /** `composed_full_name`: the primary search query, artist then name. */
  function ComposedFullName(t: Track): string
  {
    t.artist + " " + t.name
  }

  /** `composed_alternative_full_name`: the retry query, artist then raw title. */
  function ComposedAlternativeFullName(t: Track): string
  {
    t.artist + " " + t.alternativeName
  }

  /** `not_found_name`: the label reported for a track the catalog did not resolve. */
  function NotFoundName(t: Track): string
  {
    t.artist + " - " + t.name
  }

  /** The primary query is the artist, one space, then the name. */
  lemma ComposedFullNameShape(t: Track)
    ensures var q := ComposedFullName(t);
            && |q| == |t.artist| + 1 + |t.name|
            && q[..|t.artist|] == t.artist && q[|t.artist|] == ' ' && q[|t.artist| + 1..] == t.name
  {
    assert ComposedFullName(t) == t.artist + ([' '] + t.name);
  }

  /** The retry query is the artist, one space, then the raw title. */
  lemma ComposedAlternativeFullNameShape(t: Track)
    ensures var q := ComposedAlternativeFullName(t);
            && |q| == |t.artist| + 1 + |t.alternativeName|
            && q[..|t.artist|] == t.artist && q[|t.artist|] == ' ' && q[|t.artist| + 1..] == t.alternativeName
  {
    assert ComposedAlternativeFullName(t) == t.artist + ([' '] + t.alternativeName);
  }

  /** The report label is the artist, " - ", then the name. */
  lemma NotFoundNameShape(t: Track)
    ensures var shown := NotFoundName(t);
            && |shown| == |t.artist| + 3 + |t.name|
            && shown[..|t.artist|] == t.artist && shown[|t.artist|..|t.artist| + 3] == " - "
            && shown[|t.artist| + 3..] == t.name
  {
    assert NotFoundName(t) == t.artist + (" - " + t.name);
  }

  /** The report label depends on the artist and the name only. */
  lemma NotFoundNameIgnoresAlternative(t: Track, alternative: string, url: Option<string>)
    ensures NotFoundName(t.(alternativeName := alternative, vkPostUrl := url)) == NotFoundName(t)
  {
  }

  /** When the raw title is the full name, the retry query repeats the primary one. */
  lemma QueriesAgreeOnSameName(t: Track)
    requires t.name == t.alternativeName
    ensures ComposedFullName(t) == ComposedAlternativeFullName(t)
  {
  }

  /** For a fixed artist, the primary query determines the name, and the
      report label determines it too. */
  lemma NameRecoverable(t: Track, u: Track)
    requires t.artist == u.artist
    ensures ComposedFullName(t) == ComposedFullName(u) ==> t.name == u.name
    ensures NotFoundName(t) == NotFoundName(u) ==> t.name == u.name
  {
    var n := |t.artist|;
    ComposedFullNameShape(t);
    NotFoundNameShape(t);
    if ComposedFullName(t) == ComposedFullName(u) {
      assert t.name == ComposedFullName(t)[n + 1..];
    }
    if NotFoundName(t) == NotFoundName(u) {
      assert t.name == NotFoundName(t)[n + 3..];
    }
  }
}
