/**
 * Concrete runs of the handlers and of the downloader, derived from their
 * contracts alone.  They show how differently the two endpoints treat a
 * failed actor run and a timeout.
 */
module Scenarios {
  import opened Payload
  import opened Api
  import opened Downloader

  function RunningPoll<T>(): Poll<T> {
    Poll(RunState(Some("RUNNING"), None, None), FetchRaised)
  }

  function FailedPoll<T>(message: Option<string>): Poll<T> {
    Poll(RunState(Some("FAILED"), None, message), FetchRaised)
  }

  /** A run that never leaves RUNNING is polled 60 times and answered with 408. */
  method ScrapeAlwaysRunningTimesOut(url: string, username: string, runId: string)
    returns (response: Response<ScrapeResult>, polled: nat)
    ensures response == Http(408, TimedOut(600)) && polled == 60
  {
    var polls: seq<Poll<Item>> := seq(MaxScrapePolls, _ => RunningPoll());
    var calls;
    response, calls, polled := StartScrape(url, username, Started(runId), polls);
    assert forall k :: 0 <= k < MaxScrapePolls ==> ScrapeAt(polls, k, runId, username, CleanUrl(url)).None?;
  }

  /** A FAILED status in the first minute is retried; a later SUCCEEDED still wins. */
  method ScrapeRetriesEarlyFailure(url: string, username: string, runId: string, datasetId: string,
                                   items: seq<Item>, message: Option<string>)
    returns (response: Response<ScrapeResult>, polled: nat)
    requires datasetId != ""
    ensures polled == 2
    ensures response == Ok(ScrapeResult(runId, username, CleanUrl(url), items, ScrapeStats(items, 10)))
  {
    var success: Poll<Item> := Poll(RunState(Some("SUCCEEDED"), Some(datasetId), None), Fetched(items));
    var polls: seq<Poll<Item>> := [FailedPoll(message), success] + seq(MaxScrapePolls - 2, _ => RunningPoll());
    var calls;
    response, calls, polled := StartScrape(url, username, Started(runId), polls);
    assert ScrapeAt(polls, 0, runId, username, CleanUrl(url)).None?;
    assert ScrapeAt(polls, 1, runId, username, CleanUrl(url)).Some?;
  }

  /** After more than 60 seconds a FAILED status ends the scrape with a 500. */
  method ScrapeLateFailureIsFinal(url: string, username: string, runId: string, message: Option<string>)
    returns (response: Response<ScrapeResult>, polled: nat)
    ensures polled == 8
    ensures response == Http(500, Caught(HttpFault(500, RunFailed(Some(message.GetOr(UnknownError))))))
  {
    var polls: seq<Poll<Item>> := seq(7, _ => RunningPoll()) + [FailedPoll(message)] + seq(MaxScrapePolls - 8, _ => RunningPoll());
    var calls;
    response, calls, polled := StartScrape(url, username, Started(runId), polls);
    assert forall k :: 0 <= k < 7 ==> ScrapeAt(polls, k, runId, username, CleanUrl(url)).None?;
    assert ScrapeAt(polls, 7, runId, username, CleanUrl(url)).Some?;
  }

  /** A first poll that reports FAILED fetches the status and nothing else. */
  lemma FailedPollCalls<C>(polls: seq<Poll<C>>, runId: string, limit: int, message: Option<string>)
    requires polls != [] && polls[0] == FailedPoll(message)
    ensures LoopCalls(polls, 1, runId, limit) == [FetchRun(runId)]
  {
    assert LoopCalls(polls, 1, runId, limit) == LoopCalls(polls, 0, runId, limit) + PollCalls(polls[0], runId, limit);
  }

  /**
   * The comment scraper answers a FAILED status at once, with a 500, after
   * starting the scraper with the default limit of 100 and one status fetch.
   */
  method CommentsFailureIsImmediate<C>(postUrls: string, runId: string, message: Option<string>)
    returns (response: Response<CommentsResult<C>>, calls: seq<Call>, polled: nat)
    requires 1 <= |ParseUrls(postUrls)| <= MaxCommentPosts
    ensures polled == 1
    ensures response == Http(500, Caught(HttpFault(500, RunFailed(message))))
    ensures |calls| == 2 && calls[0] == RunCommentScraper(CommentsInput(ParseUrls(postUrls), 100)) && calls[1] == FetchRun(runId)
  {
    var polls: seq<Poll<C>> := [FailedPoll(message)] + seq(MaxCommentPolls - 1, _ => RunningPoll());
    response, calls, polled := ScrapeComments(postUrls, None, Started(runId), polls);
    assert CommentsAt(polls, 0, runId, |ParseUrls(postUrls)|).Some?;
    assert polled == 1;
    FailedPollCalls(polls, runId, 100, message);
    assert calls[1..][0] == FetchRun(runId);
  }

  /** The comment scraper's own 408 is caught by its handler and answered as a 500. */
  method CommentsTimeoutBecomes500<C>(postUrls: string, resultsLimitQuery: Option<int>, runId: string)
    returns (response: Response<CommentsResult<C>>, polled: nat)
    requires 1 <= |ParseUrls(postUrls)| <= MaxCommentPosts
    ensures polled == 30
    ensures response == Http(500, Caught(HttpFault(408, TimedOut(300))))
  {
    var polls: seq<Poll<C>> := seq(MaxCommentPolls, _ => RunningPoll());
    var calls;
    response, calls, polled := ScrapeComments(postUrls, resultsLimitQuery, Started(runId), polls);
    RunningPollsWait(polls, runId, |ParseUrls(postUrls)|, polled - 1);
  }

  /** A poll that reports RUNNING makes the comment scraper poll again. */
  lemma RunningPollsWait<C>(polls: seq<Poll<C>>, runId: string, postsCount: nat, k: nat)
    requires k < |polls| && polls[k] == RunningPoll()
    ensures CommentsAt(polls, k, runId, postsCount).None?
  {
  }

  /** Two transport errors, then a real image: saved on the third attempt after waiting 1 s and 2 s. */
  method SaveAfterTwoRetries(idx: nat, guess: string -> Option<string>)
    returns (file: Option<SavedFile>, tries: nat, delays: seq<nat>)
    ensures tries == 3 && delays == [1, 2]
    ensures file == Some(Image(idx, Extension("image/png", guess)))
  {
    var script := [TransportError, TransportError, Reply(200, 4096, "image/png"), TransportError];
    file, tries, delays := Save(idx, DefaultRetries, script, guess);
    assert Judge(script[2], guess).Keep?;
    assert Backoff(2) == [1, 2] by { assert Backoff(1) == [1]; }
  }

  /** A 404 ends the download at once with a placeholder, without any wait. */
  method SaveNotFound(idx: nat, guess: string -> Option<string>)
    returns (file: Option<SavedFile>, tries: nat, delays: seq<nat>)
    ensures tries == 1 && delays == [] && file == Some(Placeholder(idx))
  {
    var script := [Reply(404, 0, ""), TransportError, TransportError, TransportError];
    file, tries, delays := Save(idx, DefaultRetries, script, guess);
    assert Judge(script[0], guess).Fallback?;
  }

  /** Four transport errors use up the default budget: waits of 1, 2 and 4 s, then a placeholder. */
  method SaveExhausted(idx: nat, guess: string -> Option<string>)
    returns (file: Option<SavedFile>, tries: nat, delays: seq<nat>)
    ensures tries == 4 && delays == [1, 2, 4] && file == Some(Placeholder(idx))
  {
    var script := [TransportError, TransportError, TransportError, TransportError];
    file, tries, delays := Save(idx, DefaultRetries, script, guess);
    TransportErrorsExhaustBudget(idx, DefaultRetries, script, guess, file, tries);
    DefaultBackoff();
  }

  /**
   * A bare image whose `displayUrl` key holds `null` is still read as a post,
   * so its children's URLs are collected.
   */
  method NullDisplayUrlStillReadsChildren() returns (urls: seq<string>)
    ensures urls == ["x"]
  {
    var item := Item(None, None, Post(Some("Image"), None, None, [Child(Some("x"))], 0), true);
    urls := CollectUrls([item]);
    assert ChildUrls([Child(Some("x"))]) == ChildUrls([]) + ChildUrl(Child(Some("x")));
    assert ItemUrls(item) == ["x"];
    assert RawUrls([item]) == RawUrls([]) + ItemUrls(item);
    assert Dedupe(["x"]) == Dedupe([]) + ["x"];
  }
}
