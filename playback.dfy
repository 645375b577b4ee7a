/**
 * The answer of the music service's "current playback" query and how the
 * poller turns it into the (title, artists, album art) triple it caches.
 */
module Playback {
  import opened Wrappers

  datatype Artist = Artist(name: string)

  datatype Image = Image(url: string)

  /** The `item` of a playback answer: the track name, its artists and its
      album images, each list in the order the service returns it. */
  datatype Track = Track(name: string, artists: seq<Artist>, images: seq<Image>)

  /** A non-empty playback answer. An empty answer (the service's `None`)
      is `None` of `Option<CurrentPlayback>`. */
  datatype CurrentPlayback = CurrentPlayback(isPlaying: bool, item: Track)

  /** The triple `(title, artists, album_art)`; every part may be `None`. */
  datatype Song = Song(title: Option<string>, artists: Option<string>, albumArt: Option<string>)
  {
    /** All three parts are absent, or all three are present. */
    predicate AllOrNothing() {
      (title.None? && artists.None? && albumArt.None?) ||
      (title.Some? && artists.Some? && albumArt.Some?)
    }
  }

  /** The triple returned when nothing is playing or the query failed. */
  const NothingPlaying := Song(None, None, None)

  /** How normalising an answer ends: with a triple, or with the `IndexError`
      that indexing an empty image list raises and nothing catches. */
  datatype Fetch = Returned(song: Song) | IndexError

  /** The text placed between artist names. */
  const Separator := ", "

  /** The artist names, in the order of the artist list. */
  function Names(artists: seq<Artist>): (r: seq<string>)
    ensures |r| == |artists|
    ensures forall i :: 0 <= i < |artists| ==> r[i] == artists[i].name
  {
    if artists == [] then [] else [artists[0].name] + Names(artists[1..])
  }

  /** Python's `sep.join(xs)`. */
  function Join(sep: string, xs: seq<string>): string
  {
    if |xs| == 0 then "" else if |xs| == 1 then xs[0] else xs[0] + sep + Join(sep, xs[1..])
  }

  /** Joining two non-empty lists puts one separator between their joins:
      the names keep their order. */
  lemma {:induction false} JoinAppend(sep: string, xs: seq<string>, ys: seq<string>)
    requires xs != [] && ys != []
    ensures Join(sep, xs + ys) == Join(sep, xs) + sep + Join(sep, ys)
  {
    if |xs| == 1 {
      assert (xs + ys)[1..] == ys;
    } else {
      JoinAppend(sep, xs[1..], ys);
      assert (xs + ys)[1..] == xs[1..] + ys;
    }
  }

  /** The joined artist string is empty exactly when there are no artists
      or a single artist with an empty name. */
  lemma JoinEmptyIff(xs: seq<string>)
    ensures Join(Separator, xs) == "" <==> xs == [] || xs == [""]
  {
  }

  /** Joining loses the split points when a name itself contains ", ". */
  lemma JoinAmbiguousWithCommas()
    ensures Join(Separator, ["Tyler, The Creator"]) == Join(Separator, ["Tyler", "The Creator"])
  {
  }

  predicate IsSeparatorAt(s: string, j: nat) {
    j + 1 < |s| && s[j] == ',' && s[j + 1] == ' '
  }

  /** The first position at or after `i` where `", "` starts, or `|s|`. */
  function FindSeparator(s: string, i: nat): (k: nat)
    requires i <= |s|
    ensures i <= k <= |s|
    ensures k < |s| ==> IsSeparatorAt(s, k)
    ensures forall j :: i <= j < k ==> !IsSeparatorAt(s, j)
    decreases |s| - i
  {
    if i + 1 >= |s| then |s|
    else if IsSeparatorAt(s, i) then i
    else FindSeparator(s, i + 1)
  }

  /** Python's `s.split(", ")`: the inverse of `Join(Separator, ·)`. */
  function Split(s: string): (r: seq<string>)
    ensures |r| >= 1
    decreases |s|
  {
    var k := FindSeparator(s, 0);
    if k == |s| then [s] else [s[..k]] + Split(s[k + 2..])
  }

  /** Splitting the joined names gives the names back, provided no name
      contains a comma. */
  lemma {:induction false} SplitJoin(xs: seq<string>)
    requires xs != []
    requires forall i :: 0 <= i < |xs| ==> ',' !in xs[i]
    ensures Split(Join(Separator, xs)) == xs
  {
    var s := Join(Separator, xs);
    var k := FindSeparator(s, 0);
    if |xs| == 1 {
      assert s == xs[0];
    } else {
      var rest := Join(Separator, xs[1..]);
      assert s == xs[0] + Separator + rest;
      var n := |xs[0]|;
      assert IsSeparatorAt(s, n);
      assert forall j :: 0 <= j < n ==> s[j] == xs[0][j];
      assert k == n;
      assert s[..k] == xs[0];
      assert s[k + 2..] == rest;
      SplitJoin(xs[1..]);
      assert xs == [xs[0]] + xs[1..];
    }
  }

  /** True when the answer says a track is playing. */
  predicate IsPlaying(answer: Option<CurrentPlayback>) {
    answer.Some? && answer.value.isPlaying
  }

  /** Turns one playback answer into the cached triple: the track name, the
      artist names joined by ", ", and the URL of the first image. */
  function Normalise(answer: Option<CurrentPlayback>): (r: Fetch)
    ensures r.IndexError? <==> IsPlaying(answer) && answer.value.item.images == []
    ensures !IsPlaying(answer) ==> r == Returned(NothingPlaying)
    ensures r.Returned? ==> r.song.AllOrNothing()
  {
    if IsPlaying(answer) then
      var track := answer.value.item;
      if |track.images| == 0 then IndexError
      else Returned(Song(Some(track.name), Some(Join(Separator, Names(track.artists))), Some(track.images[0].url)))
    else
      Returned(NothingPlaying)
  }

  /** A playing answer with at least one image gives the track name
      unchanged, the artist names joined by ", " in order, and the URL of
      the first image, whatever the artists are. */
  lemma NormalisePlaying(track: Track)
    requires track.images != []
    ensures var r := Normalise(Some(CurrentPlayback(true, track)));
      r.Returned? && r.song.title == Some(track.name) &&
      r.song.albumArt == Some(track.images[0].url) &&
      r.song.artists == Some(Join(Separator, Names(track.artists)))
  {
  }

  /** When there is at least one artist and no artist name contains a
      comma, the artist string of a playing answer splits back into the
      artist names in order. */
  lemma NormaliseRecoversTrack(track: Track)
    requires track.images != [] && track.artists != []
    requires forall i :: 0 <= i < |track.artists| ==> ',' !in track.artists[i].name
    ensures var r := Normalise(Some(CurrentPlayback(true, track)));
      r.Returned? && r.song.title == Some(track.name) &&
      r.song.albumArt == Some(track.images[0].url) &&
      r.song.artists.Some? && Split(r.song.artists.value) == Names(track.artists)
  {
    SplitJoin(Names(track.artists));
  }

  /** A single artist is reported by its name alone. */
  lemma NormaliseSingleArtist(name: string, artist: Artist, images: seq<Image>)
    requires images != []
    ensures Normalise(Some(CurrentPlayback(true, Track(name, [artist], images)))).song.artists == Some(artist.name)
  {
  }

  /** A playing track still yields an empty artist string when it has no
      artists, or one artist with an empty name. */
  lemma NormaliseEmptyArtists(track: Track)
    requires track.images != []
    ensures var r := Normalise(Some(CurrentPlayback(true, track)));
      r.Returned? && (r.song.artists == Some("") <==>
        track.artists == [] || (|track.artists| == 1 && track.artists[0].name == ""))
  {
  }

  /** The worked example: one artist and one image. */
  lemma NormaliseExample()
    ensures Normalise(Some(CurrentPlayback(true,
        Track("Song A", [Artist("Artist X")], [Image("http://x/a.jpg")]))))
      == Returned(Song(Some("Song A"), Some("Artist X"), Some("http://x/a.jpg")))
  {
  }
}
