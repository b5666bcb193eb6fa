/**
 * The two scraping endpoints of the backend: `start_scrape` (a profile) and
 * `scrape_comments` (comments of posts).  Each starts an actor run, then polls
 * the run's status every 10 seconds within a time budget.  The actor service
 * is a script: how the start call went, then one `Poll` per loop iteration
 * (the status reply and, on success, the dataset reply).  Sleeping is not
 * modelled; the elapsed time is the counter the handlers keep.
 */
module Api {
  import opened Payload
  import opened Text

  const CheckInterval: int := 10
  const ScrapeMaxWait: int := 600
  const ScrapeRetryWindow: int := 60
  const ScrapeResultsLimit: int := 50
  const MaxScrapePolls: nat := 60
  const CommentsMaxWait: int := 300
  const MaxCommentPolls: nat := 30
  const MaxCommentPosts: nat := 50
  const DefaultCommentsLimit: int := 100
  const UnknownError: string := "Неизвестная ошибка"

  // ───────────────────────── request shaping ──────────────────────────────────

  predicate IsSlash(c: char) {
    c == '/'
  }

  /** `str(url).rstrip("/")` */
  function CleanUrl(url: string): (r: string)
    ensures r <= url
    ensures r == [] || r[|r| - 1] != '/'
    ensures forall k :: |r| <= k < |url| ==> url[k] == '/'
  {
    var r := TrimEnd(url, IsSlash);
    assert r == url[..|r|];
    r
  }

  /** `f"user_{username.lower()}"` */
  function UserIdentifier(username: string): (r: string)
    ensures |r| == 5 + |username| && r[..5] == "user_"
    ensures HasNoUpper(r[5..]) && r[5..] == Lower(username)
  {
    "user_" + Lower(username)
  }

  /** Usernames that differ only in letter case share one identifier. */
  lemma UserIdentifierIgnoresCase(username: string)
    ensures UserIdentifier(Lower(username)) == UserIdentifier(username)
  {
    LowerIdempotent(username);
  }

  /** The images of the pieces under `f`, without the empty ones. */
  function NonEmptyImages(pieces: seq<string>, f: string -> string): (r: seq<string>)
    ensures |r| <= |pieces|
  {
    if pieces == [] then []
    else
      var rest := NonEmptyImages(pieces[..|pieces| - 1], f);
      var u := f(pieces[|pieces| - 1]);
      if u != "" then rest + [u] else rest
  }

  /** A URL as it comes out of parsing: non-empty, without commas, no whitespace at either end. */
  predicate IsCleanPiece(u: string) {
    u != "" && ',' !in u && !IsSpace(u[0]) && !IsSpace(u[|u| - 1])
  }

  /** `[url.strip() for url in post_urls.split(',') if url.strip()]` */
  function ParseUrls(postUrls: string): (urls: seq<string>)
    ensures |urls| <= Count(postUrls, ',') + 1
  {
    NonEmptyImages(Split(postUrls, ','), Strip)
  }

  /** Some piece of `pieces` has image `u` under `f`. */
  predicate SomeImage(pieces: seq<string>, f: string -> string, u: string) {
    exists k :: 0 <= k < |pieces| && f(pieces[k]) == u
  }

  lemma {:induction false} NonEmptyImagesFrom(pieces: seq<string>, f: string -> string, u: string)
    requires u in NonEmptyImages(pieces, f)
    ensures u != "" && SomeImage(pieces, f, u)
  {
    var prefix := pieces[..|pieces| - 1];
    if u in NonEmptyImages(prefix, f) {
      NonEmptyImagesFrom(prefix, f, u);
      var k :| 0 <= k < |prefix| && f(prefix[k]) == u;
      assert pieces[k] == prefix[k];
    } else {
      assert f(pieces[|pieces| - 1]) == u;
    }
  }

  lemma {:induction false} NonEmptyImagesTo(pieces: seq<string>, f: string -> string, u: string, k: nat)
    requires k < |pieces| && f(pieces[k]) == u != ""
    ensures u in NonEmptyImages(pieces, f)
  {
    var prefix := pieces[..|pieces| - 1];
    if k < |prefix| {
      assert prefix[k] == pieces[k];
      NonEmptyImagesTo(prefix, f, u, k);
    }
  }

  /** `u` is kept iff it is non-empty and the image of some piece. */
  lemma NonEmptyImagesMembers(pieces: seq<string>, f: string -> string, u: string)
    ensures u in NonEmptyImages(pieces, f) <==> u != "" && SomeImage(pieces, f, u)
  {
    if u in NonEmptyImages(pieces, f) {
      NonEmptyImagesFrom(pieces, f, u);
    }
    if u != "" && SomeImage(pieces, f, u) {
      var k :| 0 <= k < |pieces| && f(pieces[k]) == u;
      NonEmptyImagesTo(pieces, f, u, k);
    }
  }

  /** A parsed URL is a non-empty piece between commas, stripped. */
  lemma ParseUrlsMembers(postUrls: string, u: string)
    ensures u in ParseUrls(postUrls) <==> u != "" && SomeImage(Split(postUrls, ','), Strip, u)
  {
    NonEmptyImagesMembers(Split(postUrls, ','), Strip, u);
  }

  /** How many pieces are not blank, counted from the front. */
  function NonBlank(pieces: seq<string>): nat {
    if pieces == [] then 0 else (if Strip(pieces[0]) != "" then 1 else 0) + NonBlank(pieces[1..])
  }

  lemma {:induction false} NonEmptyImagesLengthAppend(a: seq<string>, b: seq<string>, f: string -> string)
    ensures |NonEmptyImages(a + b, f)| == |NonEmptyImages(a, f)| + |NonEmptyImages(b, f)|
    decreases |b|
  {
    if b == [] {
      assert a + b == a;
    } else {
      var b' := b[..|b| - 1];
      assert (a + b)[..|a + b| - 1] == a + b';
      assert (a + b)[|a + b| - 1] == b[|b| - 1];
      NonEmptyImagesLengthAppend(a, b', f);
    }
  }

  lemma {:induction false} StrippedCount(pieces: seq<string>)
    ensures |NonEmptyImages(pieces, Strip)| == NonBlank(pieces)
  {
    if pieces != [] {
      assert pieces == [pieces[0]] + pieces[1..];
      NonEmptyImagesLengthAppend([pieces[0]], pieces[1..], Strip);
      StrippedCount(pieces[1..]);
      assert [pieces[0]][..0] == [];
    }
  }

  /** One URL per piece between commas that is not blank. */
  lemma ParseUrlsCount(postUrls: string)
    ensures |ParseUrls(postUrls)| == NonBlank(Split(postUrls, ','))
  {
    StrippedCount(Split(postUrls, ','));
  }

  lemma StrippedPiecesAreClean(pieces: seq<string>)
    requires forall p :: p in pieces ==> ',' !in p
    ensures forall u :: u in NonEmptyImages(pieces, Strip) ==> IsCleanPiece(u)
  {
    forall u | u in NonEmptyImages(pieces, Strip)
      ensures IsCleanPiece(u)
    {
      NonEmptyImagesFrom(pieces, Strip, u);
      var k :| 0 <= k < |pieces| && Strip(pieces[k]) == u;
      assert pieces[k] in pieces;
      StrippedPieceIsClean(pieces[k]);
    }
  }

  lemma StrippedPieceIsClean(p: string)
    requires ',' !in p && Strip(p) != ""
    ensures IsCleanPiece(Strip(p))
  {
    StripKeepsOut(p, ',');
  }

  /** Every parsed URL is non-empty, comma-free and stripped. */
  lemma ParsedUrlsAreClean(postUrls: string)
    ensures forall u :: u in ParseUrls(postUrls) ==> IsCleanPiece(u)
  {
    StrippedPiecesAreClean(Split(postUrls, ','));
  }

  /** Pieces that `f` leaves unchanged and that are not empty are all kept, in order. */
  lemma {:induction false} FixedPiecesKept(pieces: seq<string>, f: string -> string)
    requires forall k :: 0 <= k < |pieces| ==> pieces[k] != "" && f(pieces[k]) == pieces[k]
    ensures NonEmptyImages(pieces, f) == pieces
    decreases |pieces|
  {
    if pieces != [] {
      var prefix, last := pieces[..|pieces| - 1], pieces[|pieces| - 1];
      assert forall k :: 0 <= k < |prefix| ==> prefix[k] == pieces[k];
      FixedPiecesKept(prefix, f);
      assert pieces == prefix + [last];
    }
  }

  lemma CleanPiecesKept(pieces: seq<string>)
    requires forall k :: 0 <= k < |pieces| ==> IsCleanPiece(pieces[k])
    ensures NonEmptyImages(pieces, Strip) == pieces
  {
    forall k | 0 <= k < |pieces|
      ensures pieces[k] != "" && Strip(pieces[k]) == pieces[k]
    {
      StripOfStripped(pieces[k]);
    }
    FixedPiecesKept(pieces, Strip);
  }

  /** Clean URLs joined with commas are parsed back into the same list. */
  lemma ParseUrlsOfJoin(urls: seq<string>)
    requires |urls| >= 1
    requires forall u :: u in urls ==> IsCleanPiece(u)
    ensures ParseUrls(Join(urls, ',')) == urls
  {
    SplitJoin(urls, ',');
    assert forall k :: 0 <= k < |urls| ==> urls[k] in urls;
    CleanPiecesKept(urls);
  }

  // ───────────────────────── stats of a scrape ────────────────────────────────

  datatype Stats = Stats(totalItems: nat, profileData: nat, postsWithComments: nat, processingTimeSeconds: int)

  /** `item.get("username")` is truthy. */
  predicate HasProfile(item: Item) {
    Truthy(item.username)
  }

  /** `item.get("latestPosts")` is truthy and one of its posts has `commentsCount > 0`. */
  predicate HasCommentedPost(item: Item) {
    NonEmptyList(item.latestPosts)
      && exists k :: 0 <= k < |item.latestPosts.value| && item.latestPosts.value[k].commentsCount > 0
  }

  /** `len([item for item in items if p(item)])` */
  function CountWhere(items: seq<Item>, p: Item -> bool): (n: nat)
    ensures n <= |items|
    ensures n == |items| <==> forall k :: 0 <= k < |items| ==> p(items[k])
    ensures n == 0 <==> forall k :: 0 <= k < |items| ==> !p(items[k])
  {
    if items == [] then 0
    else
      var prefix := items[..|items| - 1];
      assert forall k :: 0 <= k < |prefix| ==> prefix[k] == items[k];
      CountWhere(prefix, p) + (if p(items[|items| - 1]) then 1 else 0)
  }

  lemma {:induction false} CountWhereAppend(a: seq<Item>, b: seq<Item>, p: Item -> bool)
    ensures CountWhere(a + b, p) == CountWhere(a, p) + CountWhere(b, p)
    decreases |b|
  {
    if b == [] {
      assert a + b == a;
    } else {
      var b' := b[..|b| - 1];
      assert (a + b)[..|a + b| - 1] == a + b';
      assert (a + b)[|a + b| - 1] == b[|b| - 1];
      CountWhereAppend(a, b', p);
    }
  }

  function ScrapeStats(items: seq<Item>, elapsed: int): (s: Stats)
    ensures s.totalItems == |items| && s.processingTimeSeconds == elapsed
    ensures s.profileData == CountWhere(items, HasProfile) <= s.totalItems
    ensures s.postsWithComments == CountWhere(items, HasCommentedPost) <= s.totalItems
  {
    Stats(|items|, CountWhere(items, HasProfile), CountWhere(items, HasCommentedPost), elapsed)
  }

  // ───────────────────────── the actor service ────────────────────────────────

  /** What `fetch_run` answered: it raised, or it returned a status record. */
  datatype RunReply =
    | RunRaised
    | RunState(status: Option<string>, datasetId: Option<string>, statusMessage: Option<string>)

  /** What `fetch_items` answered. */
  datatype Fetch<T> = FetchRaised | Fetched(records: seq<T>)

  /** The replies of one loop iteration. */
  datatype Poll<T> = Poll(run: RunReply, fetch: Fetch<T>)

  /** How `run_actor` / `run_comment_scraper` went. */
  datatype Started = StartRaised | Started(runId: string)

  datatype ActorInput = ActorInput(
    directUrls: seq<string>,
    resultsType: Option<string>,
    resultsLimit: int,
    searchLimit: Option<int>,
    searchType: Option<string>)

  /** A call made to the actor service. */
  datatype Call =
    | RunActor(input: ActorInput)
    | RunCommentScraper(input: ActorInput)
    | FetchRun(runId: string)
    | FetchItems(datasetId: string, limit: int)

  /** An exception raised inside a handler. */
  datatype Fault = ClientFault | HttpFault(code: int, detail: Detail)

  datatype Detail =
    | NoDatasetId
    | RunFailed(message: Option<string>)
    | UnexpectedStatus(status: Option<string>)
    | TimedOut(seconds: int)
    | NoUrls
    | TooManyUrls
    | Caught(cause: Fault)

  /** What a handler answers: a payload, an HTTPException, or an exception it lets escape. */
  datatype Response<P> = Ok(payload: P) | Http(code: int, detail: Detail) | Unhandled

  /** What the body of the `try` does with one poll's replies. */
  datatype Step<P> = Done(payload: P) | Wait | Raised(fault: Fault)

  predicate IsPending(status: Option<string>) {
    status == Some("RUNNING") || status == Some("READY")
  }

  /** The calls one iteration makes: the status, then the dataset when a dataset id came back. */
  function PollCalls<T>(poll: Poll<T>, runId: string, limit: int): (calls: seq<Call>)
    ensures calls != [] && calls[0] == FetchRun(runId)
    ensures forall c :: c in calls[1..] ==> c.FetchItems? && c.limit == limit
    ensures |calls| <= 2
    ensures |calls| == 2 <==> poll.run.RunState? && poll.run.status == Some("SUCCEEDED") && Truthy(poll.run.datasetId)
    ensures |calls| == 2 ==> calls[1].datasetId == poll.run.datasetId.value
  {
    match poll.run
    case RunRaised => [FetchRun(runId)]
    case RunState(status, datasetId, _) =>
      if status == Some("SUCCEEDED") && Truthy(datasetId) then [FetchRun(runId), FetchItems(datasetId.value, limit)]
      else [FetchRun(runId)]
  }

  /** A call the polling loop of run `runId` may make. */
  predicate IsLoopCall(c: Call, runId: string, limit: int) {
    (c.FetchRun? && c.runId == runId) || (c.FetchItems? && c.limit == limit)
  }

  /** The calls of the first `n` iterations of a polling loop, in order. */
  function LoopCalls<T>(polls: seq<Poll<T>>, n: nat, runId: string, limit: int): (calls: seq<Call>)
    requires n <= |polls|
    ensures n <= |calls| <= 2 * n
    ensures forall c :: c in calls ==> IsLoopCall(c, runId, limit)
  {
    if n == 0 then []
    else
      var before := LoopCalls(polls, n - 1, runId, limit);
      var now := PollCalls(polls[n - 1], runId, limit);
      assert forall c :: c in now ==> c == now[0] || c in now[1..];
      before + now
  }

  // ───────────────────────── start_scrape ─────────────────────────────────────

  datatype ScrapeResult = ScrapeResult(runId: string, username: string, url: string, data: seq<Item>, stats: Stats)

  function ScrapeInput(cleanUrl: string): ActorInput {
    ActorInput([cleanUrl], Some("posts"), ScrapeResultsLimit, Some(1), Some("user"))
  }

  /** The body of `start_scrape`'s `try` for one poll at `elapsed` seconds. */
  function ScrapeStep(poll: Poll<Item>, runId: string, username: string, cleanUrl: string, elapsed: int): (s: Step<ScrapeResult>)
    ensures s.Done? <==> poll.run.RunState? && poll.run.status == Some("SUCCEEDED")
                          && Truthy(poll.run.datasetId) && poll.fetch.Fetched?
    ensures s.Wait? <==> poll.run.RunState? && IsPending(poll.run.status)
    ensures s.Done? ==> s.payload.data == poll.fetch.records && s.payload.stats == ScrapeStats(s.payload.data, elapsed)
    ensures s.Done? ==> s.payload.runId == runId && s.payload.username == username && s.payload.url == cleanUrl
  {
    match poll.run
    case RunRaised => Raised(ClientFault)
    case RunState(status, datasetId, message) =>
      if status == Some("SUCCEEDED") then
        if !Truthy(datasetId) then Raised(HttpFault(500, NoDatasetId))
        else
          match poll.fetch
          case FetchRaised => Raised(ClientFault)
          case Fetched(items) => Done(ScrapeResult(runId, username, cleanUrl, items, ScrapeStats(items, elapsed)))
      else if status == Some("FAILED") then Raised(HttpFault(500, RunFailed(Some(message.GetOr(UnknownError)))))
      else if IsPending(status) then Wait
      else Raised(HttpFault(500, UnexpectedStatus(status)))
  }

  /**
   * What `start_scrape`'s loop does after a step at `elapsed` seconds: return
   * (Some) or poll again 10 seconds later (None).  Every exception is retried
   * while at most 60 seconds have passed.
   */
  function ScrapeDecision(step: Step<ScrapeResult>, elapsed: int): (d: Option<Response<ScrapeResult>>)
    ensures step.Raised? ==> (d.None? <==> elapsed <= ScrapeRetryWindow)
    ensures step.Raised? && d.Some? ==> d.value == Http(500, Caught(step.fault))
    ensures step.Done? ==> d == Some(Ok(step.payload))
    ensures step.Wait? ==> d.None?
  {
    match step
    case Done(p) => Some(Ok(p))
    case Wait => None
    case Raised(f) => if elapsed > ScrapeRetryWindow then Some(Http(500, Caught(f))) else None
  }

  /** The decision at the k-th poll (0-based), which happens 10 * k seconds in. */
  function ScrapeAt(polls: seq<Poll<Item>>, k: nat, runId: string, username: string, cleanUrl: string): Option<Response<ScrapeResult>>
    requires k < |polls|
  {
    ScrapeDecision(ScrapeStep(polls[k], runId, username, cleanUrl, CheckInterval * k), CheckInterval * k)
  }

  /**
   * `start_scrape`: at most 60 polls, 10 seconds apart; the first poll whose
   * decision is to return gives the response, and 408 follows when none does.
   */
  method StartScrape(url: string, username: string, start: Started, polls: seq<Poll<Item>>)
    returns (response: Response<ScrapeResult>, calls: seq<Call>, polled: nat)
    requires |polls| >= MaxScrapePolls  // the service answers every poll the loop can make
    ensures calls != [] && calls[0] == RunActor(ScrapeInput(CleanUrl(url)))
    ensures start.StartRaised? ==> response == Unhandled && polled == 0 && |calls| == 1
    ensures start.Started? ==> forall c :: c in calls[1..] ==> IsLoopCall(c, start.runId, ScrapeResultsLimit)
    ensures start.Started? ==> 1 <= polled <= MaxScrapePolls
    ensures start.Started? ==> calls[1..] == LoopCalls(polls, polled, start.runId, ScrapeResultsLimit)
    ensures start.Started? ==>
      forall k :: 0 <= k < polled - 1 ==> ScrapeAt(polls, k, start.runId, username, CleanUrl(url)).None?
    ensures start.Started? ==>
      || ScrapeAt(polls, polled - 1, start.runId, username, CleanUrl(url)) == Some(response)
      || (&& polled == MaxScrapePolls
          && ScrapeAt(polls, polled - 1, start.runId, username, CleanUrl(url)).None?
          && response == Http(408, TimedOut(ScrapeMaxWait)))
  {
    var cleanUrl := CleanUrl(url);
    calls := [RunActor(ScrapeInput(cleanUrl))];
    polled := 0;
    if start.StartRaised? {
      return Unhandled, calls, polled;
    }
    var loopCalls;
    response, loopCalls, polled := PollScrape(username, cleanUrl, start.runId, polls);
    calls := calls + loopCalls;
    assert calls[1..] == loopCalls;
  }

  /**
   * The polling loop of `start_scrape`: at most 60 polls, 10 seconds apart;
   * the first poll whose decision is to return gives the answer, and 408
   * follows when none does.
   */
  method PollScrape(username: string, cleanUrl: string, runId: string, polls: seq<Poll<Item>>)
    returns (response: Response<ScrapeResult>, calls: seq<Call>, polled: nat)
    requires |polls| >= MaxScrapePolls  // the service answers every poll the loop can make
    ensures 1 <= polled <= MaxScrapePolls
    ensures calls == LoopCalls(polls, polled, runId, ScrapeResultsLimit)
    ensures forall k :: 0 <= k < polled - 1 ==> ScrapeAt(polls, k, runId, username, cleanUrl).None?
    ensures || ScrapeAt(polls, polled - 1, runId, username, cleanUrl) == Some(response)
            || (&& polled == MaxScrapePolls
                && ScrapeAt(polls, polled - 1, runId, username, cleanUrl).None?
                && response == Http(408, TimedOut(ScrapeMaxWait)))
  {
    calls, polled := [], 0;
    var elapsed := 0;
    while elapsed < ScrapeMaxWait
      invariant elapsed == CheckInterval * polled && polled <= MaxScrapePolls
      invariant calls == LoopCalls(polls, polled, runId, ScrapeResultsLimit)
      invariant forall k :: 0 <= k < polled ==> ScrapeAt(polls, k, runId, username, cleanUrl).None?
    {
      var step := ScrapeStep(polls[polled], runId, username, cleanUrl, elapsed);
      calls := calls + PollCalls(polls[polled], runId, ScrapeResultsLimit);
      polled := polled + 1;
      match step {
        case Done(p) =>
          return Ok(p), calls, polled;
        case Wait =>
          elapsed := elapsed + CheckInterval;
        case Raised(f) =>
          if elapsed > ScrapeRetryWindow {
            return Http(500, Caught(f)), calls, polled;
          }
          elapsed := elapsed + CheckInterval;
      }
    }
    response := Http(408, TimedOut(ScrapeMaxWait));
  }

  // ───────────────────────── scrape_comments ──────────────────────────────────

  datatype CommentsResult<C> = CommentsResult(
    runId: string,
    totalComments: nat,
    postsCount: nat,
    processingTimeSeconds: int,
    comments: seq<C>)

  /** The `results_limit` query parameter, 100 when the request leaves it out. */
  function CommentsLimit(query: Option<int>): (limit: int)
    ensures query.None? ==> limit == DefaultCommentsLimit
    ensures query.Some? ==> limit == query.value
  {
    query.GetOr(DefaultCommentsLimit)
  }

  function CommentsInput(urls: seq<string>, resultsLimit: int): ActorInput {
    ActorInput(urls, None, resultsLimit, None, None)
  }

  /** The body of the polling loop of `scrape_comments` for one poll. */
  function CommentsStep<C>(poll: Poll<C>, runId: string, postsCount: nat, elapsed: int): (s: Step<CommentsResult<C>>)
    ensures s.Done? <==> poll.run.RunState? && poll.run.status == Some("SUCCEEDED")
                          && Truthy(poll.run.datasetId) && poll.fetch.Fetched?
    ensures s.Wait? <==> poll.run.RunState? && IsPending(poll.run.status)
    ensures s.Done? ==> s.payload.totalComments == |s.payload.comments| && s.payload.postsCount == postsCount
                        && s.payload.comments == poll.fetch.records
    ensures s.Done? ==> s.payload.runId == runId && s.payload.processingTimeSeconds == elapsed
  {
    match poll.run
    case RunRaised => Raised(ClientFault)
    case RunState(status, datasetId, message) =>
      if status == Some("SUCCEEDED") then
        if !Truthy(datasetId) then Raised(HttpFault(500, NoDatasetId))
        else
          match poll.fetch
          case FetchRaised => Raised(ClientFault)
          case Fetched(comments) => Done(CommentsResult(runId, |comments|, postsCount, elapsed, comments))
      else if status == Some("FAILED") then Raised(HttpFault(500, RunFailed(message)))
      else if IsPending(status) then Wait
      else Raised(HttpFault(500, UnexpectedStatus(status)))
  }

  /** Every exception inside `scrape_comments`'s `try` becomes a 500 at once. */
  function CommentsDecision<C>(step: Step<CommentsResult<C>>): (d: Option<Response<CommentsResult<C>>>)
    ensures step.Raised? ==> d == Some(Http(500, Caught(step.fault)))
    ensures d.None? <==> step.Wait?
    ensures step.Done? ==> d == Some(Ok(step.payload))
  {
    match step
    case Done(p) => Some(Ok(p))
    case Wait => None
    case Raised(f) => Some(Http(500, Caught(f)))
  }

  function CommentsAt<C>(polls: seq<Poll<C>>, k: nat, runId: string, postsCount: nat): Option<Response<CommentsResult<C>>>
    requires k < |polls|
  {
    CommentsDecision(CommentsStep(polls[k], runId, postsCount, CheckInterval * k))
  }

  /**
   * `scrape_comments`: `results_limit` is 100 unless the query gives one; the
   * URL list is validated before any call; then at most 30 polls, 10 seconds
   * apart; every failure, its own timeout included, is answered with a 500.
   */
  method ScrapeComments<C>(postUrls: string, resultsLimitQuery: Option<int>, start: Started, polls: seq<Poll<C>>)
    returns (response: Response<CommentsResult<C>>, calls: seq<Call>, polled: nat)
    requires |polls| >= MaxCommentPolls  // the service answers every poll the loop can make
    ensures ParseUrls(postUrls) == [] ==> response == Http(400, NoUrls) && calls == [] && polled == 0
    ensures |ParseUrls(postUrls)| > MaxCommentPosts ==> response == Http(400, TooManyUrls) && calls == [] && polled == 0
    ensures 1 <= |ParseUrls(postUrls)| <= MaxCommentPosts ==>
      calls != [] && calls[0] == RunCommentScraper(CommentsInput(ParseUrls(postUrls), CommentsLimit(resultsLimitQuery)))
    ensures 1 <= |ParseUrls(postUrls)| <= MaxCommentPosts && start.StartRaised? ==>
      response == Http(500, Caught(ClientFault)) && polled == 0 && |calls| == 1
    ensures 1 <= |ParseUrls(postUrls)| <= MaxCommentPosts && start.Started? ==>
      && (forall c :: c in calls[1..] ==> IsLoopCall(c, start.runId, CommentsLimit(resultsLimitQuery)))
      && 1 <= polled <= MaxCommentPolls
      && calls[1..] == LoopCalls(polls, polled, start.runId, CommentsLimit(resultsLimitQuery))
      && (forall k :: 0 <= k < polled - 1 ==> CommentsAt(polls, k, start.runId, |ParseUrls(postUrls)|).None?)
      && (|| CommentsAt(polls, polled - 1, start.runId, |ParseUrls(postUrls)|) == Some(response)
          || (&& polled == MaxCommentPolls
              && CommentsAt(polls, polled - 1, start.runId, |ParseUrls(postUrls)|).None?
              && response == Http(500, Caught(HttpFault(408, TimedOut(CommentsMaxWait))))))
    ensures response.Http? ==> response.code == 400 || response.code == 500
  {
    response, calls, polled := CommentsForUrls(ParseUrls(postUrls), CommentsLimit(resultsLimitQuery), start, polls);
  }

  /** `scrape_comments` once the URL list is parsed: validate it, start the scraper, then poll. */
  method CommentsForUrls<C>(urls: seq<string>, resultsLimit: int, start: Started, polls: seq<Poll<C>>)
    returns (response: Response<CommentsResult<C>>, calls: seq<Call>, polled: nat)
    requires |polls| >= MaxCommentPolls  // the service answers every poll the loop can make
    ensures urls == [] ==> response == Http(400, NoUrls) && calls == [] && polled == 0
    ensures |urls| > MaxCommentPosts ==> response == Http(400, TooManyUrls) && calls == [] && polled == 0
    ensures 1 <= |urls| <= MaxCommentPosts ==> calls != [] && calls[0] == RunCommentScraper(CommentsInput(urls, resultsLimit))
    ensures 1 <= |urls| <= MaxCommentPosts && start.StartRaised? ==>
      response == Http(500, Caught(ClientFault)) && polled == 0 && |calls| == 1
    ensures 1 <= |urls| <= MaxCommentPosts && start.Started? ==>
      && (forall c :: c in calls[1..] ==> IsLoopCall(c, start.runId, resultsLimit))
      && 1 <= polled <= MaxCommentPolls
      && calls[1..] == LoopCalls(polls, polled, start.runId, resultsLimit)
      && (forall k :: 0 <= k < polled - 1 ==> CommentsAt(polls, k, start.runId, |urls|).None?)
      && (|| CommentsAt(polls, polled - 1, start.runId, |urls|) == Some(response)
          || (&& polled == MaxCommentPolls
              && CommentsAt(polls, polled - 1, start.runId, |urls|).None?
              && response == Http(500, Caught(HttpFault(408, TimedOut(CommentsMaxWait))))))
    ensures response.Http? ==> response.code == 400 || response.code == 500
  {
    calls, polled := [], 0;
    if urls == [] {
      return Http(400, NoUrls), calls, polled;
    }
    if |urls| > MaxCommentPosts {
      return Http(400, TooManyUrls), calls, polled;
    }
    calls := [RunCommentScraper(CommentsInput(urls, resultsLimit))];
    if start.StartRaised? {
      return Http(500, Caught(ClientFault)), calls, polled;
    }
    var loopCalls;
    response, loopCalls, polled := PollComments(|urls|, resultsLimit, start.runId, polls);
    calls := calls + loopCalls;
    assert calls[1..] == loopCalls;
  }

  /**
   * The polling loop inside `scrape_comments`'s `try`: at most 30 polls, 10
   * seconds apart; the first poll that does not say "poll again" gives the
   * answer, and running out of time raises a 408 that the handler answers
   * with a 500.
   */
  method PollComments<C>(postsCount: nat, resultsLimit: int, runId: string, polls: seq<Poll<C>>)
    returns (response: Response<CommentsResult<C>>, calls: seq<Call>, polled: nat)
    requires |polls| >= MaxCommentPolls  // the service answers every poll the loop can make
    ensures forall c :: c in calls ==> IsLoopCall(c, runId, resultsLimit)
    ensures 1 <= polled <= MaxCommentPolls
    ensures calls == LoopCalls(polls, polled, runId, resultsLimit)
    ensures forall k :: 0 <= k < polled - 1 ==> CommentsAt(polls, k, runId, postsCount).None?
    ensures || CommentsAt(polls, polled - 1, runId, postsCount) == Some(response)
            || (&& polled == MaxCommentPolls
                && CommentsAt(polls, polled - 1, runId, postsCount).None?
                && response == Http(500, Caught(HttpFault(408, TimedOut(CommentsMaxWait)))))
    ensures response.Http? ==> response.code == 500
  {
    calls, polled := [], 0;
    var elapsed := 0;
    while elapsed < CommentsMaxWait
      invariant elapsed == CheckInterval * polled && polled <= MaxCommentPolls
      invariant calls == LoopCalls(polls, polled, runId, resultsLimit)
      invariant forall k :: 0 <= k < polled ==> CommentsAt(polls, k, runId, postsCount).None?
    {
      var step := CommentsStep(polls[polled], runId, postsCount, elapsed);
      calls := calls + PollCalls(polls[polled], runId, resultsLimit);
      polled := polled + 1;
      match step {
        case Done(p) =>
          return Ok(p), calls, polled;
        case Wait =>
          elapsed := elapsed + CheckInterval;
        case Raised(f) =>
          return Http(500, Caught(f)), calls, polled;
      }
    }
    response := Http(500, Caught(HttpFault(408, TimedOut(CommentsMaxWait))));
  }
}
