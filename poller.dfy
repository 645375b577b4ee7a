/**
 * The background updater: the shared now-playing record, the updater's
 * memory of the last track it applied, and one iteration of its loop.
 */
module Poller {
  import opened Wrappers
  import opened Playback
  import opened RateLimit

  /** Python truthiness of an optional string: `None` and `""` are false. */
  predicate Truthy(s: Option<string>) {
    s.Some? && s.value != ""
  }

  /** The shared record (as a triple) and the updater's previous title and
      artist string. */
  datatype UpdaterState = UpdaterState(record: Song, previousTitle: Option<string>, previousArtist: Option<string>)

  /** The record as created at start-up and the updater's initial memory. */
  const Initial := UpdaterState(NothingPlaying, None, None)

  /** What one iteration does with the triple it fetched. */
  function Next(s: UpdaterState, fetched: Song): UpdaterState
  {
    if Truthy(fetched.title) && Truthy(fetched.artists) then
      if fetched.title != s.previousTitle || fetched.artists != s.previousArtist then
        UpdaterState(fetched, fetched.title, fetched.artists)
      else
        s
    else
      s.(record := s.record.(albumArt := None))
  }

  /** The record always shows the last track applied, and it is either the
      start-up record or a truthy title and artist string, with album art
      only beside them. */
  predicate Consistent(s: UpdaterState) {
    s.record.title == s.previousTitle && s.record.artists == s.previousArtist &&
    ((s.record.title.None? && s.record.artists.None?) ||
     (Truthy(s.record.title) && Truthy(s.record.artists))) &&
    (s.record.albumArt.Some? ==> Truthy(s.record.title))
  }

  lemma InitialConsistent()
    ensures Consistent(Initial)
  {
  }

  lemma NextKeepsConsistent(s: UpdaterState, fetched: Song)
    requires Consistent(s)
    ensures Consistent(Next(s, fetched))
  {
  }

  /** A new track (title or artist string differs from the previous pair)
      overwrites all three fields and becomes the previous pair. */
  lemma NextNewTrack(s: UpdaterState, fetched: Song)
    requires Truthy(fetched.title) && Truthy(fetched.artists)
    requires fetched.title != s.previousTitle || fetched.artists != s.previousArtist
    ensures Next(s, fetched) == UpdaterState(fetched, fetched.title, fetched.artists)
  {
  }

  /** The same track again changes nothing, even if its album art differs. */
  lemma NextSameTrack(s: UpdaterState, fetched: Song)
    requires Truthy(fetched.title) && Truthy(fetched.artists)
    requires fetched.title == s.previousTitle && fetched.artists == s.previousArtist
    ensures Next(s, fetched) == s
  {
  }

  /** A falsy title or artist string clears the album art only. */
  lemma NextNothingPlaying(s: UpdaterState, fetched: Song)
    requires !Truthy(fetched.title) || !Truthy(fetched.artists)
    ensures var t := Next(s, fetched);
      t.record.albumArt.None? &&
      t.record.title == s.record.title && t.record.artists == s.record.artists &&
      t.previousTitle == s.previousTitle && t.previousArtist == s.previousArtist
  {
  }

  /** Seeing the same triple twice in a row writes nothing the second time. */
  lemma NextIdempotent(s: UpdaterState, fetched: Song)
    ensures Next(Next(s, fetched), fetched) == Next(s, fetched)
  {
  }

  /** While the record is consistent, "differs from the previous pair" is
      "differs from what the record shows". */
  lemma NewTrackIsAgainstRecord(s: UpdaterState, fetched: Song)
    requires Consistent(s)
    ensures (fetched.title != s.previousTitle || fetched.artists != s.previousArtist) <==>
            (fetched.title != s.record.title || fetched.artists != s.record.artists)
  {
  }

  /** Track A playing, then nothing, then A again: the title and artists of
      A stay on the record but its album art is left cleared, so the record
      is no longer all-present or all-absent. */
  lemma ResumeAfterPause(a: Song)
    requires Truthy(a.title) && Truthy(a.artists) && a.albumArt.Some?
    ensures var s := Next(Next(Next(Initial, a), NothingPlaying), a);
      s.record == Song(a.title, a.artists, None) && !s.record.AllOrNothing()
  {
  }

  /** The state after a finite run of iterations, the i-th of which sees the
      outcomes `rounds[i]`; an `IndexError` ends the updater for good. */
  function Replay(s: UpdaterState, rounds: seq<seq<Outcome>>): UpdaterState
    requires forall i :: 0 <= i < |rounds| ==> |rounds[i]| >= MaxAttempts
    decreases |rounds|
  {
    if rounds == [] then s
    else match Retry(rounds[0]).result
      case IndexError => s
      case Returned(song) => Replay(Next(s, song), rounds[1..])
  }

  lemma {:induction false} ReplayKeepsConsistent(s: UpdaterState, rounds: seq<seq<Outcome>>)
    requires forall i :: 0 <= i < |rounds| ==> |rounds[i]| >= MaxAttempts
    requires Consistent(s)
    ensures Consistent(Replay(s, rounds))
    decreases |rounds|
  {
    if rounds != [] && Retry(rounds[0]).result.Returned? {
      NextKeepsConsistent(s, Retry(rounds[0]).result.song);
      ReplayKeepsConsistent(Next(s, Retry(rounds[0]).result.song), rounds[1..]);
    }
  }

  /** Polling an unchanged playback state any number of times leaves the
      state where the first poll put it. */
  lemma {:induction false} ReplaySteady(s: UpdaterState, round: seq<Outcome>, n: nat)
    requires |round| >= MaxAttempts && n >= 1
    ensures Replay(s, seq(n, _ => round)) == Replay(s, [round])
    decreases n
  {
    var rounds := seq(n, _ => round);
    if n > 1 && Retry(round).result.Returned? {
      var song := Retry(round).result.song;
      var t := Next(s, song);
      assert rounds[1..] == seq(n - 1, _ => round);
      ReplaySteady(t, round, n - 1);
      NextIdempotent(s, song);
      assert Replay(t, [round]) == Replay(Next(t, song), []);
    }
  }

  /** The shared `current_song_info` record that the web page reads. */
  class SongInfo {
    var title: Option<string>
    var artists: Option<string>
    var albumArt: Option<string>

    constructor ()
      ensures Snapshot() == NothingPlaying
    {
      title, artists, albumArt := None, None, None;
    }

    /** The record as the `/album-art` endpoint copies it out. */
    function Snapshot(): Song
      reads this
    {
      Song(title, artists, albumArt)
    }
  }

  /** The `update_song_info` thread: the shared record it writes and its
      local memory of the previous title and artist string. */
  class Updater {
    const info: SongInfo
    var previousTitle: Option<string>
    var previousArtist: Option<string>

    function State(): UpdaterState
      reads this, info
    {
      UpdaterState(info.Snapshot(), previousTitle, previousArtist)
    }

    ghost predicate Valid()
      reads this, info
    {
      Consistent(State())
    }

    constructor ()
      ensures fresh(info) && Valid() && State() == Initial
    {
      info := new SongInfo();
      previousTitle, previousArtist := None, None;
    }

    /** One iteration of the loop: fetch the triple, then write the record
        only for a new track, or clear the album art when nothing plays.
        `alive` is false when the fetch raised `IndexError`, which ends the
        thread with nothing written. */
    method Step(outcomes: seq<Outcome>) returns (alive: bool, calls: nat, sleeps: seq<nat>)
      requires Valid() && |outcomes| >= MaxAttempts
      modifies this, info
      ensures Valid()
      ensures alive == Retry(outcomes).result.Returned?
      ensures calls == Retry(outcomes).calls && sleeps == Retry(outcomes).sleeps
      ensures State() == if alive then Next(old(State()), Retry(outcomes).result.song) else old(State())
    {
      var fetched;
      fetched, calls, sleeps := GetCurrentSong(outcomes);
      if fetched.IndexError? {
        alive := false;
        return;
      }
      alive := true;
      var title, artists, albumArt := fetched.song.title, fetched.song.artists, fetched.song.albumArt;
      if Truthy(title) && Truthy(artists) {
        if title != previousTitle || artists != previousArtist {
          info.title := title;
          info.artists := artists;
          info.albumArt := albumArt;
          previousTitle := title;
          previousArtist := artists;
        }
      } else {
        info.albumArt := None;
      }
      NextKeepsConsistent(old(State()), fetched.song);
    }

    /** A finite stretch of the updater's endless loop: one iteration per
        element of `rounds`, stopping early if an iteration raised.
        `completed` counts the iterations that finished. */
    method Run(rounds: seq<seq<Outcome>>) returns (completed: nat)
      requires Valid()
      requires forall i :: 0 <= i < |rounds| ==> |rounds[i]| >= MaxAttempts
      modifies this, info
      ensures Valid()
      ensures State() == Replay(old(State()), rounds)
      ensures completed <= |rounds|
      ensures forall i :: 0 <= i < completed ==> Retry(rounds[i]).result.Returned?
      ensures completed < |rounds| ==> Retry(rounds[completed]).result.IndexError?
    {
      completed := 0;
      while completed < |rounds|
        invariant completed <= |rounds|
        invariant forall i :: 0 <= i < completed ==> Retry(rounds[i]).result.Returned?
        invariant Valid()
        invariant Replay(old(State()), rounds) == Replay(State(), rounds[completed..])
      {
        var alive, calls, sleeps := Step(rounds[completed]);
        if !alive {
          return;
        }
        assert rounds[completed..][1..] == rounds[completed + 1..];
        completed := completed + 1;
      }
    }
  }
}
