/**
 * The request handler (index.ts:121-167) and the reply step it gates
 * (index.ts:109-117): validate `location`, fetch the posts, run
 * classify -> generate -> reply on each post, and choose the status.
 *
 * The per-post pipelines share no state, so `Promise.all` over them is
 * modelled as a map in fetch order. The collaborators are functions: the
 * k-th search call, and the completions and reply outcome for the post at
 * position i of the fetched list.
 */
module Handler {
  import opened Outcomes
  import opened Text
  import opened Fetching
  import opened Intents

  /** `req.query.location`: absent, given once, or given several times (an array). */
  datatype QueryValue = Missing | Single(value: string) | Repeated(values: seq<string>)

  /** The validation of the handler: a string whose JavaScript `length` is at least 2. */
  predicate ValidLocation(q: QueryValue) {
    q.Single? && Utf16Length(q.value) >= 2
  }

  const InvalidLocationMessage: string := "Valid location is required"
  const ServerErrorMessage: string := "Internal server error"
  const SuccessMessage: string := "Processed tweets successfully"

  /** The `DRY_RUN` environment variable, when set, is compared with "true". */
  predicate IsDryRun(flag: Option<string>) {
    flag == Some("true")
  }

  datatype PostResult = PostResult(tweetId: string, intent: string, response: string)

  /** The JSON body of a response. */
  datatype Body =
    | ErrorBody(error: string)
    | Processed(message: string, results: seq<PostResult>, dryRun: bool)

  datatype Response = Response(status: int, body: Body)

  /** What a reply attempt leaves behind: only a log line, success or failure. */
  datatype ReplyLog = Replied | ReplyFailed(message: string)

  datatype ReplyAttempt = ReplyAttempt(tweetId: string, text: string, log: ReplyLog)

  datatype Collaborators = Collaborators(
    search: nat -> SearchOutcome,          // the k-th search call
    classify: nat -> Completion,           // classification completion for post i
    generate: (nat, string) -> Completion, // generation completion for post i, given its intent
    reply: nat -> ReplyOutcome)            // reply outcome for post i

  /** One request: the response, the search calls and waits of the fetch,
      and every reply dispatched, in fetch order. */
  datatype HandlerRun = HandlerRun(response: Response, searchCalls: nat, waits: seq<nat>, replies: seq<ReplyAttempt>)

  /** `replyToTweet`: post the reply; a failure is logged and swallowed. */
  function ReplyToTweet(post: Post, text: string, outcome: ReplyOutcome): (attempt: ReplyAttempt)
    ensures attempt.tweetId == post.id && attempt.text == text
    ensures attempt.log.ReplyFailed? <==> outcome.ReplyThrew?
  {
    match outcome
    case Posted => ReplyAttempt(post.id, text, Replied)
    case ReplyThrew(e) => ReplyAttempt(post.id, text, ReplyFailed(ErrorMessage(e)))
  }

  /** The result of one post's pipeline and the reply it dispatched, if any. */
  datatype PostRun = PostRun(result: PostResult, reply: Option<ReplyAttempt>)

  /** The per-post pipeline for the post at position `i`: classify, then
      generate from that intent, then reply unless this is a dry run. */
  function ProcessPost(i: nat, post: Post, dryRun: bool, env: Collaborators): (run: PostRun)
    ensures run.result.tweetId == post.id
    ensures run.result.intent == ClassifyIntent(env.classify(i))
    ensures run.result.response == GenerateResponse(run.result.intent, env.generate(i, run.result.intent))
    ensures run.result.intent in IntentCategories && run.result.response != []
    ensures run.reply.Some? <==> !dryRun
    ensures run.reply.Some? ==> run.reply.value.tweetId == post.id && run.reply.value.text == run.result.response
  {
    var intent := ClassifyIntent(env.classify(i));
    var response := GenerateResponse(intent, env.generate(i, intent));
    var reply := if dryRun then None else Some(ReplyToTweet(post, response, env.reply(i)));
    PostRun(PostResult(post.id, intent, response), reply)
  }

  function ProcessPosts(posts: seq<Post>, dryRun: bool, env: Collaborators): seq<PostRun> {
    seq(|posts|, i requires 0 <= i < |posts| => ProcessPost(i, posts[i], dryRun, env))
  }

  function Results(runs: seq<PostRun>): seq<PostResult> {
    seq(|runs|, i requires 0 <= i < |runs| => runs[i].result)
  }

  /** The replies the pipelines dispatched, in the order of their posts. */
  function Dispatched(runs: seq<PostRun>): (replies: seq<ReplyAttempt>)
    ensures |replies| <= |runs|
  {
    if runs == [] then []
    else (match runs[0].reply case Some(a) => [a] case None => []) + Dispatched(runs[1..])
  }

  /** Pipelines that all skipped the reply dispatched nothing. */
  lemma {:induction false} DispatchedNone(runs: seq<PostRun>)
    requires forall i :: 0 <= i < |runs| ==> runs[i].reply.None?
    ensures Dispatched(runs) == []
  {
    if runs != [] {
      DispatchedNone(runs[1..]);
    }
  }

  /** Pipelines that all replied dispatched one reply each, in order. */
  lemma {:induction false} DispatchedAll(runs: seq<PostRun>)
    requires forall i :: 0 <= i < |runs| ==> runs[i].reply.Some?
    ensures |Dispatched(runs)| == |runs|
    ensures forall i :: 0 <= i < |runs| ==> Dispatched(runs)[i] == runs[i].reply.value
  {
    if runs != [] {
      DispatchedAll(runs[1..]);
      assert Dispatched(runs) == [runs[0].reply.value] + Dispatched(runs[1..]);
    }
  }

  /** `handler`: validation, then the fetch with the default retry bound,
      then 500 on a fetch error, 404 on no posts, and 200 with one result per
      post otherwise. */
  function Handle(query: QueryValue, dryRunFlag: Option<string>, env: Collaborators): (run: HandlerRun)
    ensures run.response.status in {200, 400, 404, 500}
    ensures run.response.status == 400 <==> !ValidLocation(query)
    ensures !ValidLocation(query) ==> run == HandlerRun(Response(400, ErrorBody(InvalidLocationMessage)), 0, [], [])
    ensures ValidLocation(query) ==>
      run.searchCalls == Fetch(env.search, DefaultMaxRetries).calls &&
      run.waits == Fetch(env.search, DefaultMaxRetries).waits
    ensures run.response.status == 500 <==> ValidLocation(query) && Fetch(env.search, DefaultMaxRetries).outcome.Failed?
    ensures run.response.status == 500 ==> run.response.body == ErrorBody(ServerErrorMessage)
    ensures run.response.status == 404 <==> ValidLocation(query) && Fetch(env.search, DefaultMaxRetries).outcome == Fetched([])
    ensures run.response.status == 404 ==> run.response.body == ErrorBody("No recent tweets found for " + query.value)
    ensures run.response.status != 200 ==> run.replies == []
    ensures run.response.status == 200 ==>
      var posts := Fetch(env.search, DefaultMaxRetries).outcome.posts;
      var body := run.response.body;
      body.Processed? && body.message == SuccessMessage && body.dryRun == IsDryRun(dryRunFlag) &&
      |body.results| == |posts| &&
      (forall i :: 0 <= i < |posts| ==>
        body.results[i].tweetId == posts[i].id &&
        body.results[i].intent == ClassifyIntent(env.classify(i)) &&
        body.results[i].response == GenerateResponse(body.results[i].intent, env.generate(i, body.results[i].intent)) &&
        body.results[i].intent in IntentCategories &&
        body.results[i].response != []) &&
      |run.replies| == (if IsDryRun(dryRunFlag) then 0 else |posts|) &&
      (forall i :: 0 <= i < |run.replies| ==>
        run.replies[i].tweetId == posts[i].id && run.replies[i].text == body.results[i].response)
  {
    if !ValidLocation(query) then
      HandlerRun(Response(400, ErrorBody(InvalidLocationMessage)), 0, [], [])
    else
      var fetched := Fetch(env.search, DefaultMaxRetries);
      match fetched.outcome
      case Failed(_) =>
        HandlerRun(Response(500, ErrorBody(ServerErrorMessage)), fetched.calls, fetched.waits, [])
      case Fetched(posts) =>
        if |posts| == 0 then
          HandlerRun(Response(404, ErrorBody("No recent tweets found for " + query.value)), fetched.calls, fetched.waits, [])
        else
          var dryRun := IsDryRun(dryRunFlag);
          var runs := ProcessPosts(posts, dryRun, env);
          var replies := Dispatched(runs);
          if dryRun then
            DispatchedNone(runs);
            HandlerRun(Response(200, Processed(SuccessMessage, Results(runs), dryRun)), fetched.calls, fetched.waits, replies)
          else
            DispatchedAll(runs);
            HandlerRun(Response(200, Processed(SuccessMessage, Results(runs), dryRun)), fetched.calls, fetched.waits, replies)
  }

  /** Reply failures never change the response: two runs that differ only in
      what the reply calls do give the same response and dispatch the same
      replies, up to their log lines. */
  lemma ReplyOutcomesDoNotMatter(query: QueryValue, dryRunFlag: Option<string>, env: Collaborators,
                                 reply': nat -> ReplyOutcome)
    ensures Handle(query, dryRunFlag, env).response == Handle(query, dryRunFlag, env.(reply := reply')).response
    ensures var a, b := Handle(query, dryRunFlag, env).replies, Handle(query, dryRunFlag, env.(reply := reply')).replies;
      |a| == |b| && forall i :: 0 <= i < |a| ==> a[i].tweetId == b[i].tweetId && a[i].text == b[i].text
  {
    var env' := env.(reply := reply');
    var fetched := Fetch(env.search, DefaultMaxRetries);
    if ValidLocation(query) && fetched.outcome.Fetched? && |fetched.outcome.posts| > 0 {
      var posts := fetched.outcome.posts;
      var dryRun := IsDryRun(dryRunFlag);
      var runs, runs' := ProcessPosts(posts, dryRun, env), ProcessPosts(posts, dryRun, env');
      assert Results(runs) == Results(runs') by {
        forall i | 0 <= i < |posts|
          ensures Results(runs)[i] == Results(runs')[i]
        {
          assert runs[i] == ProcessPost(i, posts[i], dryRun, env);
          assert runs'[i] == ProcessPost(i, posts[i], dryRun, env');
        }
      }
    }
  }

  /** A post whose classification answers a category name as is and whose
      generation answers a text without surrounding whitespace gets exactly
      that intent and that text. */
  lemma PipelineKeepsAnswers(env: Collaborators, i: nat, post: Post, dryRun: bool, cat: string, text: string)
    requires cat in IntentCategories && env.classify(i) == Answered(Some(cat))
    requires text != [] && Trim(text) == text && env.generate(i, cat) == Answered(Some(text))
    ensures ProcessPost(i, post, dryRun, env).result == PostResult(post.id, cat, text)
  {
    CategoryIsFixedPoint(cat);
  }

  /** The 200 response carries the pipelines' results in fetch order. */
  lemma RespondsInFetchOrder(query: QueryValue, dryRunFlag: Option<string>, env: Collaborators, posts: seq<Post>)
    requires ValidLocation(query)
    requires Fetch(env.search, DefaultMaxRetries).outcome == Fetched(posts) && posts != []
    ensures Handle(query, dryRunFlag, env).response ==
      Response(200, Processed(SuccessMessage, Results(ProcessPosts(posts, IsDryRun(dryRunFlag), env)), IsDryRun(dryRunFlag)))
  {
  }

  /** Two posts whose completions answer `cat` and `text` as is. */
  lemma TwoPipelines(env: Collaborators, dryRun: bool, p1: Post, p2: Post, cat: string, text: string)
    requires cat in IntentCategories && text != [] && Trim(text) == text
    requires env.classify(0) == env.classify(1) == Answered(Some(cat))
    requires env.generate(0, cat) == env.generate(1, cat) == Answered(Some(text))
    ensures Results(ProcessPosts([p1, p2], dryRun, env)) == [PostResult(p1.id, cat, text), PostResult(p2.id, cat, text)]
  {
    var runs := ProcessPosts([p1, p2], dryRun, env);
    assert |runs| == 2;
    assert runs[0].result == PostResult(p1.id, cat, text) by {
      assert runs[0] == ProcessPost(0, p1, dryRun, env);
      PipelineKeepsAnswers(env, 0, p1, dryRun, cat, text);
    }
    assert runs[1].result == PostResult(p2.id, cat, text) by {
      assert runs[1] == ProcessPost(1, p2, dryRun, env);
      PipelineKeepsAnswers(env, 1, p2, dryRun, cat, text);
    }
    ResultsOfTwo(runs);
  }

  lemma ResultsOfTwo(runs: seq<PostRun>)
    requires |runs| == 2
    ensures Results(runs) == [runs[0].result, runs[1].result]
  {
  }

  /** A request for "Paris" whose search yields two posts, with every
      classification answering "food" and every generation answering
      "Try the croissants?". */
  lemma ParisExample(env: Collaborators, dryRunFlag: Option<string>, p1: Post, p2: Post)
    requires env.search(0) == Found([p1, p2])
    requires forall i :: env.classify(i) == Answered(Some("food"))
    requires forall i, intent :: env.generate(i, intent) == Answered(Some("Try the croissants?"))
    ensures Handle(Single("Paris"), dryRunFlag, env).response ==
      Response(200, Processed(SuccessMessage,
        [PostResult(p1.id, "food", "Try the croissants?"), PostResult(p2.id, "food", "Try the croissants?")],
        IsDryRun(dryRunFlag)))
  {
    assert ValidLocation(Single("Paris")) by {
      assert |"Paris"| == 5;
    }
    assert Fetch(env.search, DefaultMaxRetries).outcome == Fetched([p1, p2]) by {
      assert !RateLimitedAt(env.search, 0) && RateLimitedBefore(env.search, 0);
      FetchSettles(env.search, DefaultMaxRetries, 0);
    }
    var text := "Try the croissants?";
    assert Trim(text) == text by {
      assert text[0] == 'T' && text[|text| - 1] == '?';
      TrimKeepsPrintableEnds(text);
    }
    assert "food" in IntentCategories;
    TwoPipelines(env, IsDryRun(dryRunFlag), p1, p2, "food", text);
    RespondsInFetchOrder(Single("Paris"), dryRunFlag, env, [p1, p2]);
  }
}
