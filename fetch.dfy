/**
 * `fetchTweets`: the post search wrapped in a bounded retry loop with
 * exponential backoff on rate-limit errors (index.ts:20-48).
 *
 * The search collaborator is the function `search`: `search(k)` is what the
 * k-th call (0-based) of this fetch yields. A wait of the backoff timer is
 * recorded as its duration in milliseconds, in the order the waits happen.
 */
module Fetching {
  import opened Outcomes

  /** The retry bound `fetchTweets` gets when its caller does not pass one. */
  const DefaultMaxRetries: int := 3

  function Pow2(k: nat): nat {
    if k == 0 then 1 else 2 * Pow2(k - 1)
  }

  /** The wait, in milliseconds, after the rate-limited call number `k` (0-based). */
  function Backoff(k: nat): nat {
    1000 * Pow2(k)
  }

  /** The waits taken after `n` consecutive rate-limited calls, built one wait at a time. */
  function Schedule(n: nat): (w: seq<nat>)
    ensures |w| == n
    ensures forall k :: 0 <= k < n ==> w[k] == 1000 * Pow2(k)
  {
    if n == 0 then [] else Schedule(n - 1) + [Backoff(n - 1)]
  }

  /** The two errors `fetchTweets` throws. */
  datatype FetchError =
    | MaxRetriesReached
    | FetchFailed(cause: string)
  {
    /** The message of the `Error` thrown. */
    function Message(): string {
      match this
      case MaxRetriesReached => "Max retries reached for fetching tweets"
      case FetchFailed(cause) => "Failed to fetch tweets: " + cause
    }
  }

  datatype FetchResult =
    | Fetched(posts: seq<Post>)
    | Failed(error: FetchError)

  /** What one fetch shows: its result, how many search calls it made and the waits it took. */
  datatype FetchRun = FetchRun(outcome: FetchResult, calls: nat, waits: seq<nat>)

  predicate RateLimitedAt(search: nat -> SearchOutcome, k: nat) {
    search(k).SearchThrew? && IsRateLimit(search(k).error)
  }

  /** Every search call numbered below `n` is rate-limited. */
  predicate RateLimitedBefore(search: nat -> SearchOutcome, n: int) {
    forall k: nat :: k < n ==> RateLimitedAt(search, k)
  }

  /** The result a search call that is not rate-limited ends the fetch with. */
  function Settle(o: SearchOutcome): FetchResult {
    match o
    case Found(posts) => Fetched(posts)
    case SearchThrew(e) => Failed(FetchFailed(ErrorMessage(e)))
  }

  /** The loop of `fetchTweets` from the state where `retries` calls have been
      rate-limited and `waits` have been taken. */
  function Attempt(search: nat -> SearchOutcome, maxRetries: int, retries: nat, waits: seq<nat>): FetchRun
    decreases if retries < maxRetries then maxRetries - retries else 0
  {
    if retries >= maxRetries then
      FetchRun(Failed(MaxRetriesReached), retries, waits)
    else if RateLimitedAt(search, retries) then
      Attempt(search, maxRetries, retries + 1, waits + [Backoff(retries)])
    else
      FetchRun(Settle(search(retries)), retries + 1, waits)
  }

  /** A whole run of `fetchTweets(location, maxRetries)`. */
  function Fetch(search: nat -> SearchOutcome, maxRetries: int): FetchRun {
    Attempt(search, maxRetries, 0, [])
  }

  function Max0(m: int): nat {
    if m > 0 then m else 0
  }

  /** `fetchTweets`, step by step: the `while` loop over `retries`, the search
      call, the copy of the yielded posts into `tweetData`, the backoff wait on
      a 429 and the two throws. */
  method FetchTweets(search: nat -> SearchOutcome, maxRetries: int)
    returns (result: FetchResult, calls: nat, waits: seq<nat>)
    ensures FetchRun(result, calls, waits) == Fetch(search, maxRetries)
  {
    var retries: nat := 0;
    calls, waits := 0, [];
    while retries < maxRetries
      invariant calls == retries
      invariant Attempt(search, maxRetries, retries, waits) == Fetch(search, maxRetries)
      decreases maxRetries - retries
    {
      calls := calls + 1;
      match search(retries)
      case Found(posts) =>
        var tweetData: seq<Post> := [];
        var i := 0;
        while i < |posts|
          invariant 0 <= i <= |posts|
          invariant tweetData == posts[..i]
        {
          tweetData := tweetData + [posts[i]];
          i := i + 1;
        }
        assert tweetData == posts && !RateLimitedAt(search, retries);
        return Fetched(tweetData), calls, waits;
      case SearchThrew(e) =>
        if IsRateLimit(e) {
          waits := waits + [Backoff(retries)];
          retries := retries + 1;
        } else {
          return Failed(FetchFailed(ErrorMessage(e))), calls, waits;
        }
    }
    return Failed(MaxRetriesReached), calls, waits;
  }

  /** The shape of every run from a state reached by `r` rate-limited calls. */
  lemma {:induction false} AttemptShape(search: nat -> SearchOutcome, m: int, r: nat)
    requires r <= Max0(m)
    requires RateLimitedBefore(search, r)
    ensures var run := Attempt(search, m, r, Schedule(r));
      r <= run.calls <= Max0(m) && run.waits == Schedule(|run.waits|) &&
      RateLimitedBefore(search, |run.waits|)
    ensures var run := Attempt(search, m, r, Schedule(r));
      run.outcome == Failed(MaxRetriesReached) <==> RateLimitedBefore(search, m)
    ensures var run := Attempt(search, m, r, Schedule(r));
      run.outcome == Failed(MaxRetriesReached) ==> run.calls == |run.waits| == Max0(m)
    ensures var run := Attempt(search, m, r, Schedule(r));
      run.outcome != Failed(MaxRetriesReached) ==>
        run.calls == |run.waits| + 1 && !RateLimitedAt(search, |run.waits|) &&
        run.outcome == Settle(search(|run.waits|))
    decreases Max0(m) - r
  {
    if r < m && RateLimitedAt(search, r) {
      assert Schedule(r) + [Backoff(r)] == Schedule(r + 1);
      AttemptShape(search, m, r + 1);
    }
  }

  /** A fetch makes at most `maxRetries` search calls, none when `maxRetries`
      is not positive, and it takes a wait only after a rate-limited call,
      the k-th wait being 1000 * 2^k ms. */
  lemma FetchBounds(search: nat -> SearchOutcome, maxRetries: int)
    ensures Fetch(search, maxRetries).calls <= Max0(maxRetries)
    ensures maxRetries <= 0 ==> Fetch(search, maxRetries) == FetchRun(Failed(MaxRetriesReached), 0, [])
    ensures var run := Fetch(search, maxRetries);
      run.waits == Schedule(|run.waits|) && RateLimitedBefore(search, |run.waits|)
    ensures var run := Fetch(search, maxRetries);
      |run.waits| == (if run.outcome == Failed(MaxRetriesReached) then run.calls else run.calls - 1)
  {
    AttemptShape(search, maxRetries, 0);
  }

  /** The "max retries" error comes out exactly when every one of the
      `maxRetries` calls is rate-limited; the fetch then has made all of them
      and waited after each one, the last included. */
  lemma FetchExhausted(search: nat -> SearchOutcome, maxRetries: int)
    ensures Fetch(search, maxRetries).outcome == Failed(MaxRetriesReached) <==> RateLimitedBefore(search, maxRetries)
    ensures RateLimitedBefore(search, maxRetries) ==>
      Fetch(search, maxRetries) == FetchRun(Failed(MaxRetriesReached), Max0(maxRetries), Schedule(Max0(maxRetries)))
  {
    AttemptShape(search, maxRetries, 0);
  }

  /** The first call that is not rate-limited ends the fetch: its posts are
      returned exactly as yielded, or its error is wrapped and thrown at once,
      with no further call and no further wait. */
  lemma FetchSettles(search: nat -> SearchOutcome, maxRetries: int, j: nat)
    requires j < maxRetries
    requires RateLimitedBefore(search, j) && !RateLimitedAt(search, j)
    ensures Fetch(search, maxRetries) == FetchRun(Settle(search(j)), j + 1, Schedule(j))
    ensures search(j).Found? ==> Fetch(search, maxRetries).outcome == Fetched(search(j).posts)
    ensures search(j).SearchThrew? ==>
      Fetch(search, maxRetries).outcome == Failed(FetchFailed(ErrorMessage(search(j).error)))
  {
    AttemptShape(search, maxRetries, 0);
    var run := Fetch(search, maxRetries);
    assert !RateLimitedBefore(search, maxRetries);
    var w := |run.waits|;
    assert !RateLimitedAt(search, w);
    assert w == j;
  }

  /** With the default bound, a search that is always rate-limited is called
      three times, with waits of 1, 2 and 4 seconds, and fails with "max retries". */
  lemma DefaultExhaustion(search: nat -> SearchOutcome)
    requires RateLimitedBefore(search, DefaultMaxRetries)
    ensures Fetch(search, DefaultMaxRetries) == FetchRun(Failed(MaxRetriesReached), 3, [1000, 2000, 4000])
    ensures Fetch(search, DefaultMaxRetries).outcome.error.Message() == "Max retries reached for fetching tweets"
  {
    FetchExhausted(search, DefaultMaxRetries);
    assert Schedule(3) == [1000, 2000, 4000];
  }

  /** Two rate-limited calls and then a success: the posts of the third call,
      after waits of 1 and 2 seconds. */
  lemma RecoversAfterTwoRateLimits(search: nat -> SearchOutcome, posts: seq<Post>)
    requires RateLimitedAt(search, 0) && RateLimitedAt(search, 1)
    requires search(2) == Found(posts)
    ensures Fetch(search, DefaultMaxRetries) == FetchRun(Fetched(posts), 3, [1000, 2000])
  {
    FetchSettles(search, DefaultMaxRetries, 2);
    assert Schedule(2) == [1000, 2000];
  }
}
