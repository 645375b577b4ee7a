# Now-playing poller: a Dafny model

This project models the poll-and-cache core of the Spotify current-song
display script `Song_title_display_v3-0-1.py`. A background thread asks the
music service for the account's current playback. It retries with
exponential back-off while the service answers HTTP 429. It normalises a
playing answer into the triple (title, artists joined by `", "`, URL of the
first album image). It writes that triple into the shared record
`current_song_info` only when the track has changed. The web page reads that
record.

Modules:

- `Wrappers` (`wrappers.dfy`): `Option`, standing for Python's `None`.
- `Playback` (`playback.dfy`): the playback answer (`CurrentPlayback`,
  `Track`, `Artist`, `Image`), the triple `Song`, `Join` (Python's
  `", ".join`), its inverse `Split`, and `Normalise`.
  `Normalise` turns one answer into a `Fetch`: a triple, or the uncaught
  `IndexError` that `images[0]` raises on an empty image list.
- `RateLimit` (`ratelimit.dfy`): each call of the query ends in an
  `Outcome`: `Answered(answer)`, `RateLimited` (HTTP 429) or
  `OtherHttpError`. The method `GetCurrentSong` is the retry loop. It takes
  the outcomes of successive calls and returns the fetch result, the number
  of calls, and the list of back-off sleeps in seconds. `Retry` is the
  closed form it is proved against.
- `Poller` (`poller.dfy`): the shared record is the class `SongInfo`. The
  updater thread is the class `Updater`, which holds that record and its
  local `previous_title`/`previous_artist`. `Updater.Step` is one loop
  iteration and `Updater.Run` a finite stretch of the loop. `Next` is the
  pure transition they are proved against. `Consistent` is the invariant
  every step keeps: the record shows the last applied pair, and album art
  appears only beside a truthy title.

Python truthiness is modelled by `Poller.Truthy`: `None` and `""` are both
false in `if title and artists`.

When nothing is playing, the code clears only `album_art` (line 217) and
keeps the record's title and artists and the previous pair. The model does
the same. `Poller.ResumeAfterPause` shows the consequence: when the same
track resumes after a pause, the record keeps its title and artists but its
album art stays `None`, so the record is then neither all-present nor
all-absent.

## Model

| member | source | states |
|---|---|---|
| `Playback.JoinAppend` | Song_title_display_v3-0-1.py:58 | joining two non-empty name lists equals their joins with one `", "` between, so the names keep the API's order |
| `Playback.JoinEmptyIff` | Song_title_display_v3-0-1.py:58 | the joined artist string is `""` exactly when there are no names or a single empty name |
| `Playback.JoinAmbiguousWithCommas` | Song_title_display_v3-0-1.py:58 | the join is lossy: one artist named "Tyler, The Creator" gives the same string as two artists "Tyler" and "The Creator" |
| `Playback.SplitJoin` | Song_title_display_v3-0-1.py:58 | when no name contains a comma, splitting the joined string on `", "` gives back the name list |
| `Playback.Normalise` | Song_title_display_v3-0-1.py:56-62 | an empty or not-playing answer gives the all-`None` triple; a playing answer with no images raises `IndexError`, and only then; every triple returned is all-`None` or all-present |
| `Playback.NormalisePlaying` | Song_title_display_v3-0-1.py:57-60 | a playing answer with at least one image gives the track name unchanged, the artist names joined by `", "` in order, and the first image's URL, for any artist list |
| `Playback.NormaliseRecoversTrack` | Song_title_display_v3-0-1.py:57-60 | for a playing answer with at least one image, at least one artist and no comma in any artist name, the triple keeps the track name and the first image's URL, and its artist string splits back into the artist names in order |
| `Playback.NormaliseSingleArtist` | Song_title_display_v3-0-1.py:58 | a single artist is reported as just that name |
| `Playback.NormaliseEmptyArtists` | Song_title_display_v3-0-1.py:58 | a playing track has an empty artist string exactly when it has no artists or one artist with an empty name |
| `Playback.NormaliseExample` | Song_title_display_v3-0-1.py:57-60 | "Song A" by "Artist X" with image "http://x/a.jpg" normalises to exactly that triple |
| `RateLimit.Throttled` | Song_title_display_v3-0-1.py:53-67 | counts the leading rate-limited calls, at most five: every call before it was a 429 and the call at it, if made, was not |
| `RateLimit.BackoffDoubles` | Song_title_display_v3-0-1.py:64-67 | after `k` rate-limited calls there are `k` sleeps, the one after 0-based attempt `j` lasting `2**j` seconds |
| `RateLimit.BackoffTotal` | Song_title_display_v3-0-1.py:64-67 | `k` back-off sleeps add up to `2**k - 1` seconds |
| `RateLimit.GetCurrentSong` | Song_title_display_v3-0-1.py:51-71 | the retry loop returns exactly the closed-form `Retry` result, call count and sleep list for the given outcomes |
| `RateLimit.RetryBounds` | Song_title_display_v3-0-1.py:52-53 | the query is called between one and five times; each recorded sleep follows a 429 and lasts `2**j`; a sleep follows the last call only when all five calls were rate-limited |
| `RateLimit.AllRateLimited` | Song_title_display_v3-0-1.py:64-71 | five 429s give five calls, sleeps 1, 2, 4, 8, 16 (31 seconds in all) and the all-`None` triple |
| `RateLimit.OtherErrorStops` | Song_title_display_v3-0-1.py:63-71 | a non-429 HTTP error after `k` 429s stops at once: `k + 1` calls, no sleep for it, all-`None` triple |
| `RateLimit.AnswerStops` | Song_title_display_v3-0-1.py:55-62 | the first answer ends the loop: an empty or not-playing answer gives the all-`None` triple without retrying; a playing one gives its normalised triple |
| `RateLimit.RetryIgnoresLaterOutcomes` | Song_title_display_v3-0-1.py:53-70 | outcomes after the last call made have no effect on the result, the calls or the sleeps |
| `RateLimit.RetryAllOrNothing` | Song_title_display_v3-0-1.py:56-71 | every triple `get_current_song` returns is all-`None` or all-present |
| `Poller.InitialConsistent` | Song_title_display_v3-0-1.py:45-49 | the start-up record and the updater's initial `None`/`None` memory satisfy the invariant |
| `Poller.NextKeepsConsistent` | Song_title_display_v3-0-1.py:205-217 | every iteration keeps the invariant: the record's title and artists equal the previous pair, are both absent or both truthy, and album art appears only with a title |
| `Poller.NextNewTrack` | Song_title_display_v3-0-1.py:205-214 | truthy title and artists that differ from the previous pair in either part overwrite all three record fields and become the previous pair |
| `Poller.NextSameTrack` | Song_title_display_v3-0-1.py:205-211 | truthy title and artists equal to the previous pair change nothing, even when the album art URL differs |
| `Poller.NextNothingPlaying` | Song_title_display_v3-0-1.py:215-217 | a `None` or empty title or artist string sets only `album_art` to `None`; the record's title, artists and the previous pair are untouched |
| `Poller.NextIdempotent` | Song_title_display_v3-0-1.py:205-217 | the same triple twice in a row writes nothing the second time |
| `Poller.NewTrackIsAgainstRecord` | Song_title_display_v3-0-1.py:206-214 | under the invariant, differing from the previous pair is the same as differing from what the record shows |
| `Poller.ResumeAfterPause` | Song_title_display_v3-0-1.py:215-217 | track A, then nothing, then A again leaves A's title and artists with `album_art` `None`, a record that is neither all-present nor all-absent |
| `Poller.ReplayKeepsConsistent` | Song_title_display_v3-0-1.py:197-217 | any finite run of iterations keeps the invariant |
| `Poller.ReplaySteady` | Song_title_display_v3-0-1.py:197-217 | polling an unchanged playback state `n >= 1` times leaves the state where one poll puts it |
| `Poller.SongInfo.constructor` | Song_title_display_v3-0-1.py:45-49 | the shared record starts with all three fields `None` |
| `Poller.Updater.constructor` | Song_title_display_v3-0-1.py:194-195 | the updater starts with a fresh all-`None` record and `None` previous title and artist, which satisfies the invariant |
| `Poller.Updater.Step` | Song_title_display_v3-0-1.py:202-217 | one iteration makes `Retry`'s calls and sleeps; it moves the record and memory by `Next`, or changes nothing and reports the thread dead when the fetch raised `IndexError`; it keeps the invariant |
| `Poller.Updater.Run` | Song_title_display_v3-0-1.py:197-219 | a finite stretch of the loop ends in `Replay`'s state; `completed` is the index of the first iteration whose fetch raised `IndexError` (every earlier fetch returned a triple), or the number of rounds if none raised |

## Left out

- The Flask routes and the HTML/CSS/JavaScript page (lines 73-189). The `/album-art` handler only copies the record out; `SongInfo.Snapshot` stands for that copy.
- The spotipy client and OAuth setup (lines 42-43, 55). Each call of `sp.current_playback()` is replaced by the next element of an outcome sequence. The sequence must have at least five elements, one for each call the loop may make.
- Reading the configuration file and the credentials file (lines 6-39): file I/O with defaults.
- Real time: `time.sleep` in the back-off is recorded as a list of whole seconds, and the poll interval sleep at line 219 (a float, default 0.5) is not modelled.
- The endless `while True` loop, the threading bootstrap and concurrent reads by Flask (lines 197, 221-231). `Updater.Run` covers any finite number of iterations; torn reads are not modelled.
- Logging, `print` output and the `check_number` counter (lines 191-200, 66, 69, 207, 216).
- The model assumes that a failed query raises `requests.exceptions.HTTPError` (the only type line 63 catches), with 429 and other status codes as the two outcomes. What the spotipy client actually raises is not part of this model.
- `Updater.Run` does not return the calls and back-off sleeps of its iterations; each `Updater.Step` states its own.
- Exceptions other than `HTTPError` and the `IndexError` of an empty image list, for example a connection error, or an answer whose `item` is `None`. These would also propagate out of `get_current_song` and end the thread. An `HTTPError` without a response is not modelled either.
