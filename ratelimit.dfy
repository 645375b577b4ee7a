/**
 * The rate-limit retry policy of `get_current_song`: up to five calls of the
 * playback query, an exponential back-off sleep after each HTTP 429, and a
 * fall-back to the all-`None` triple on any other HTTP error.
 */
module RateLimit {
  import opened Wrappers
  import opened Playback

  /** What one call of the playback query ends in: an answer (possibly
      empty), an `HTTPError` with status 429, or any other `HTTPError`. */
  datatype Outcome = Answered(answer: Option<CurrentPlayback>) | RateLimited | OtherHttpError

  /** `retries` in `get_current_song`. */
  const MaxAttempts: nat := 5

  function Pow2(n: nat): (r: nat)
    ensures r >= 1
  {
    if n == 0 then 1 else 2 * Pow2(n - 1)
  }

  /** The sleeps after `k` rate-limited attempts, in seconds: 2^0 .. 2^(k-1). */
  function Backoff(k: nat): (r: seq<nat>)
  {
    if k == 0 then [] else Backoff(k - 1) + [Pow2(k - 1)]
  }

  function Sum(s: seq<nat>): nat
  {
    if s == [] then 0 else Sum(s[..|s| - 1]) + s[|s| - 1]
  }

  /** Attempt `j` (0-based) is followed by a sleep of exactly 2^j seconds. */
  lemma {:induction false} BackoffDoubles(k: nat)
    ensures |Backoff(k)| == k
    ensures forall j :: 0 <= j < k ==> Backoff(k)[j] == Pow2(j)
  {
    if k > 0 {
      BackoffDoubles(k - 1);
    }
  }

  /** `k` back-off sleeps add up to 2^k - 1 seconds. */
  lemma {:induction false} BackoffTotal(k: nat)
    ensures Sum(Backoff(k)) == Pow2(k) - 1
  {
    if k > 0 {
      BackoffTotal(k - 1);
      var b := Backoff(k);
      assert b[..|b| - 1] == Backoff(k - 1);
    }
  }

  /** The number of rate-limited calls before the first call that is not,
      looking at no more than `n` calls. */
  function Throttled(outcomes: seq<Outcome>, n: nat): (k: nat)
    ensures k <= n && k <= |outcomes|
    ensures forall j :: 0 <= j < k ==> outcomes[j].RateLimited?
    ensures k < n && k < |outcomes| ==> !outcomes[k].RateLimited?
  {
    if n == 0 || outcomes == [] || !outcomes[0].RateLimited? then 0
    else 1 + Throttled(outcomes[1..], n - 1)
  }

  /** The result of one `get_current_song`: the triple (or the uncaught
      `IndexError`), how many times the query was called, and the sleeps. */
  datatype Attempts = Attempts(result: Fetch, calls: nat, sleeps: seq<nat>)

  /** What `get_current_song` does when the query's successive calls end in
      `outcomes[0]`, `outcomes[1]`, ... */
  function Retry(outcomes: seq<Outcome>): (a: Attempts)
    requires |outcomes| >= MaxAttempts
  {
    var k := Throttled(outcomes, MaxAttempts);
    if k == MaxAttempts then
      Attempts(Returned(NothingPlaying), MaxAttempts, Backoff(MaxAttempts))
    else
      var result := match outcomes[k]
        case Answered(answer) => Normalise(answer)
        case _ => Returned(NothingPlaying);
      Attempts(result, k + 1, Backoff(k))
  }

  /** The retry loop of `get_current_song`, with the sleeps recorded rather
      than slept. */
  method GetCurrentSong(outcomes: seq<Outcome>) returns (r: Fetch, calls: nat, sleeps: seq<nat>)
    requires |outcomes| >= MaxAttempts
    ensures Attempts(r, calls, sleeps) == Retry(outcomes)
  {
    calls, sleeps := 0, [];
    for i := 0 to MaxAttempts
      invariant calls == i && sleeps == Backoff(i)
      invariant forall j :: 0 <= j < i ==> outcomes[j].RateLimited?
    {
      calls := calls + 1;
      match outcomes[i]
      case Answered(answer) =>
        r := Normalise(answer);
        return;
      case RateLimited =>
        sleeps := sleeps + [Pow2(i)];
      case OtherHttpError =>
        break;
    }
    r := Returned(NothingPlaying);
  }

  /** The query is called at least once and at most five times; there is one
      sleep per rate-limited call, so a sleep follows the last call only
      when all five were rate-limited. */
  lemma RetryBounds(outcomes: seq<Outcome>)
    requires |outcomes| >= MaxAttempts
    ensures var a := Retry(outcomes);
      1 <= a.calls <= MaxAttempts &&
      |a.sleeps| == (if a.calls == MaxAttempts && outcomes[MaxAttempts - 1].RateLimited? then a.calls else a.calls - 1) &&
      forall j :: 0 <= j < |a.sleeps| ==> a.sleeps[j] == Pow2(j) && outcomes[j].RateLimited?
  {
    BackoffDoubles(Throttled(outcomes, MaxAttempts));
  }

  /** Five rate-limited calls: sleeps of 1, 2, 4, 8 and 16 seconds (31 in
      all, the last one after the final call) and the all-`None` triple. */
  lemma AllRateLimited(outcomes: seq<Outcome>)
    requires |outcomes| >= MaxAttempts
    requires forall j :: 0 <= j < MaxAttempts ==> outcomes[j].RateLimited?
    ensures Retry(outcomes) == Attempts(Returned(NothingPlaying), 5, [1, 2, 4, 8, 16])
    ensures Sum(Retry(outcomes).sleeps) == 31
  {
    assert Throttled(outcomes, MaxAttempts) == MaxAttempts;
    BackoffTotal(MaxAttempts);
  }

  /** A non-429 HTTP error after `k` rate-limited calls stops at once: no
      further call, no sleep for it, and the all-`None` triple. */
  lemma OtherErrorStops(outcomes: seq<Outcome>, k: nat)
    requires |outcomes| >= MaxAttempts && k < MaxAttempts
    requires forall j :: 0 <= j < k ==> outcomes[j].RateLimited?
    requires outcomes[k].OtherHttpError?
    ensures Retry(outcomes) == Attempts(Returned(NothingPlaying), k + 1, Backoff(k))
  {
  }

  /** An answer after `k` rate-limited calls ends the loop: an empty or
      not-playing answer gives the all-`None` triple without retrying, a
      playing one gives its normalised triple. */
  lemma AnswerStops(outcomes: seq<Outcome>, k: nat)
    requires |outcomes| >= MaxAttempts && k < MaxAttempts
    requires forall j :: 0 <= j < k ==> outcomes[j].RateLimited?
    requires outcomes[k].Answered?
    ensures Retry(outcomes).calls == k + 1 && Retry(outcomes).sleeps == Backoff(k)
    ensures !IsPlaying(outcomes[k].answer) ==> Retry(outcomes).result == Returned(NothingPlaying)
    ensures IsPlaying(outcomes[k].answer) ==> Retry(outcomes).result == Normalise(outcomes[k].answer)
  {
  }

  /** Outcomes past the last call made do not matter. */
  lemma RetryIgnoresLaterOutcomes(outcomes: seq<Outcome>, other: seq<Outcome>)
    requires |outcomes| >= MaxAttempts && |other| >= MaxAttempts
    requires forall j :: 0 <= j < Retry(outcomes).calls ==> other[j] == outcomes[j]
    ensures Retry(other) == Retry(outcomes)
  {
  }

  /** Every triple the retry loop returns is all-`None` or all-present. */
  lemma RetryAllOrNothing(outcomes: seq<Outcome>)
    requires |outcomes| >= MaxAttempts
    ensures Retry(outcomes).result.Returned? ==> Retry(outcomes).result.song.AllOrNothing()
  {
  }
}
