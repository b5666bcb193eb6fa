# Instagram parser backend: photo downloader and scrape endpoints, in Dafny

This project models the core of the backend of an Instagram parser. It covers two parts.

- **The photo downloader** (`mythic_backend/app/services/downloader.py`).
  - It picks the photo URLs out of a scraped dataset. Two item shapes are read: profile items with `latestPosts`, and bare posts. Only `Image` and `Sidecar` posts count. In each post the URLs are taken in the order `displayUrl`, `images`, then the children's `displayUrl`.
  - It then removes repeats and empty strings, keeping first occurrences, and caps the list at 50.
  - Each URL is downloaded with a bounded retry loop. Only transport errors are retried, with waits of 1, 2 and 4 seconds.
  - The file for URL number *i* is named `{i:03d}{ext}`, or `{i:03d}_placeholder.jpg` when the download falls back.
- **The two scrape endpoints** (`mythic_backend/app/main.py`).
  - `start_scrape` starts an actor run and polls its status every 10 seconds for up to 600 seconds. Every exception inside its loop, a FAILED status included, is retried while at most 60 seconds have passed. After that it becomes a 500.
  - `scrape_comments` first parses and validates a comma-separated URL list. It then polls every 10 seconds for up to 300 seconds. Every failure, including its own 408 timeout, is answered with a 500.
  - The helpers are modelled too: URL cleaning, the user identifier, URL-list parsing and the `stats` counts.

The actor service and the HTTP transport are scripts, not live calls:
- the start call is a `Started` value;
- each loop iteration consumes one `Poll`, which holds the status reply and the dataset reply;
- each download attempt consumes one `Attempt`.

Sleeping is not modelled. The handlers' `elapsed_time` counter and the downloader's list of waits take its place. The handlers return a `Response` and the list of calls they made to the actor service. The downloader returns the files it leaves, as `SavedFile` records.

Modules:
- `payload.dfy` (`Payload`): the dataset records.
- `filenames.dfy` (`FileNames`): the `{i:03d}` index.
- `downloader.dfy` (`Downloader`): URL collection, the retry loop and the download.
- `text.dfy` (`Text`): Python's `rstrip`, `strip`, `split` and `lower`.
- `api.dfy` (`Api`): the two endpoints.
- `scenarios.dfy` (`Scenarios`): concrete runs derived from the contracts.

## Model

| member | source | states |
|---|---|---|
| `Downloader.ChildUrlsMembers` | mythic_backend/app/services/downloader.py:57-60 | a URL is among a carousel's collected child URLs iff some child has it as a truthy `displayUrl` |
| `Downloader.AppendPostUrls` | mythic_backend/app/services/downloader.py:45-60 | appends exactly the post's URLs: the truthy `displayUrl`, then the `images` list when it is non-empty, then each child's truthy `displayUrl` |
| `Downloader.AppendProfilePosts` | mythic_backend/app/services/downloader.py:33-60 | appends the URLs of the photo posts of `latestPosts`, post by post, skipping every other post type |
| `Downloader.KeepFirstOccurrences` | mythic_backend/app/services/downloader.py:90-96 | the `seen`-set loop produces exactly `Dedupe` of its input |
| `Downloader.Cap` | mythic_backend/app/services/downloader.py:98-102 | the result is the prefix of length min(n, 50) of the list |
| `Downloader.CollectUrls` | mythic_backend/app/services/downloader.py:10-105 | the result is `Cap(Dedupe(RawUrls(items)))`; it has at most 50 entries, no repeats and no empty string |
| `Downloader.DedupeMembers` | mythic_backend/app/services/downloader.py:90-96 | a URL survives de-duplication iff it is non-empty and occurs in the input |
| `Downloader.DedupeNoDuplicates` | mythic_backend/app/services/downloader.py:90-96 | the de-duplicated list has no repeated and no empty entry |
| `Downloader.DedupeKeepsDistinct` | mythic_backend/app/services/downloader.py:90-96 | a list without repeats or empty strings is returned unchanged |
| `Downloader.DedupeIdempotent` | mythic_backend/app/services/downloader.py:90-96 | de-duplicating twice is the same as once |
| `Downloader.DedupePrefixStable` | mythic_backend/app/services/downloader.py:90-96 | what is kept from a prefix is a prefix of what is kept from the whole list, so later URLs never reorder earlier ones |
| `Downloader.DedupeFirstOccurrence` | mythic_backend/app/services/downloader.py:93-96 | the first occurrence of a new non-empty URL lands right after everything its prefix kept |
| `Downloader.PostsUrlsMembers` | mythic_backend/app/services/downloader.py:33-60 | a URL comes from `latestPosts` iff it is a URL of some post there whose type is `Image` or `Sidecar` |
| `Downloader.ItemUrlsMembers` | mythic_backend/app/services/downloader.py:29-88 | a URL comes from an item iff that item contributes it: through `latestPosts` alone when the key is present, else through its own keys when it has a `displayUrl` or `images` key, whatever its value, and is a photo post, else nothing |
| `Downloader.RawUrlsMembers` | mythic_backend/app/services/downloader.py:29-88 | a URL is collected before de-duplication iff some item contributes it |
| `Downloader.FlattenMembers` | mythic_backend/app/services/downloader.py:29-88 | a URL is in the in-order concatenation of the per-item lists iff some item's list holds it |
| `Downloader.CollectedUrlsProperties` | mythic_backend/app/services/downloader.py:29-102 | the result has at most 50 distinct non-empty URLs, each contributed by a photo post; when no more than 50 distinct URLs exist, every contributed non-empty URL is in it |
| `Downloader.Extension` | mythic_backend/app/services/downloader.py:124-125 | the extension is never empty: it is the guessed one when the guess is truthy, else `.jpg` |
| `Downloader.Save` | mythic_backend/app/services/downloader.py:109-153 | `_save` makes between 1 and `max_retries + 1` attempts (none when `max_retries < 0`); every attempt before the last was a transport error; a transport error at the last allowed attempt, a status error, a body under 1024 bytes and any other exception all leave the placeholder; a good body leaves `{i:03d}{ext}`; the waits are exactly 2^0, 2^1, ... for each retry |
| `Downloader.SaveEndsWithUnique` | mythic_backend/app/services/downloader.py:111-153 | the attempt count and the file left are determined by the transport's answers |
| `Downloader.NonTransientFailureIsFinal` | mythic_backend/app/services/downloader.py:116-153 | a non-2xx status, a too-small body or any other exception on the first attempt ends the download after that one attempt, with a placeholder |
| `Downloader.TransportErrorsExhaustBudget` | mythic_backend/app/services/downloader.py:131-139 | when every attempt is a transport error, all `max_retries + 1` attempts are made and a placeholder is left |
| `Downloader.BackoffTotal` | mythic_backend/app/services/downloader.py:131-135 | n retries wait 2^n - 1 seconds in total |
| `Downloader.DefaultBackoff` | mythic_backend/app/services/downloader.py:133 | with the default budget of 3 retries the waits are 1, 2 and 4 seconds |
| `Downloader.DistinctIndicesDistinctNames` | mythic_backend/app/services/downloader.py:126 | files of different indices below 1000 have different names, saved or placeholder |
| `Downloader.DefaultBudgetLeavesFile` | mythic_backend/app/services/downloader.py:111-153 | with the default budget of 3 retries, `_save` always leaves exactly one file, named after its index |
| `Downloader.NumberedFilesHaveDistinctNames` | mythic_backend/app/services/downloader.py:219 | files numbered 1, 2, ... in URL order, fewer than 1000 of them, all have different names |
| `Downloader.DownloadPhotos` | mythic_backend/app/services/downloader.py:189-234 | exactly one file per collected URL; URL number i gets index i (1-based); each file is what `_save` leaves under the default budget; no two files share a name |
| `FileNames.Decimal` | mythic_backend/app/services/downloader.py:126 | the numeral is a non-empty digit string without a leading zero |
| `FileNames.DecimalRoundTrip` | mythic_backend/app/services/downloader.py:126 | parsing the numeral of n gives n |
| `FileNames.ZeroPad` | mythic_backend/app/services/downloader.py:126 | the padded string has length max(width, \|s\|), ends with s and is zeros before it |
| `FileNames.LeadingZerosIgnored` | mythic_backend/app/services/downloader.py:126 | leading zeros do not change a numeral's value |
| `FileNames.Pad3RoundTrip` | mythic_backend/app/services/downloader.py:126 | parsing `{n:03d}` gives n back |
| `FileNames.Pad3Injective` | mythic_backend/app/services/downloader.py:126 | different indices have different `{n:03d}` strings |
| `FileNames.Pad3Width` | mythic_backend/app/services/downloader.py:126 | below 1000, `{n:03d}` is exactly three characters |
| `FileNames.DistinctPrefixes` | mythic_backend/app/services/downloader.py:181 | names starting with the padded indices of two different files differ, whatever follows |
| `Text.TrimEnd` | mythic_backend/app/main.py:47 | the result is a prefix of the input; everything removed is a dropped character; the result does not end with one |
| `Text.LeadingRun` | mythic_backend/app/main.py:158 | the count covers exactly the leading characters that are dropped: all before it are, and the one at it (if any) is not |
| `Text.TrimStart` | mythic_backend/app/main.py:158 | the result is a suffix of the input; everything removed is a dropped character; the result does not start with one |
| `Text.Strip` | mythic_backend/app/main.py:158 | the result is the slice that starts after the leading whitespace run; everything before and after it is whitespace; it neither starts nor ends with whitespace |
| `Text.StripKeepsOut` | mythic_backend/app/main.py:158 | stripping a string that lacks a character gives a string that lacks it too (so stripped pieces of a comma split hold no comma) |
| `Text.StripOfStripped` | mythic_backend/app/main.py:158 | a string that neither starts nor ends with whitespace is left unchanged by stripping |
| `Text.Split` | mythic_backend/app/main.py:158 | there is one more piece than there are separators, and no piece contains the separator |
| `Text.JoinSplit` | mythic_backend/app/main.py:158 | joining the pieces with the separator gives the string back |
| `Text.SplitJoin` | mythic_backend/app/main.py:158 | splitting a join of separator-free pieces gives the pieces back |
| `Text.Lower` | mythic_backend/app/main.py:49 | same length; no upper-case ASCII letter left; each character is unchanged or is the lower-case form of an upper-case letter |
| `Text.LowerIdempotent` | mythic_backend/app/main.py:49 | lower-casing twice is the same as once |
| `Api.CleanUrl` | mythic_backend/app/main.py:47 | the clean URL is the URL without its trailing run of `/` |
| `Api.UserIdentifier` | mythic_backend/app/main.py:49 | the identifier is `user_` followed by the username in lower case, so it has no upper-case letter after the prefix |
| `Api.UserIdentifierIgnoresCase` | mythic_backend/app/main.py:49 | usernames that differ only in case share one identifier |
| `Api.ParseUrls` | mythic_backend/app/main.py:158 | at most one URL more than there are commas |
| `Api.NonEmptyImagesMembers` | mythic_backend/app/main.py:158 | a string is kept iff it is non-empty and the image of some piece |
| `Api.ParseUrlsMembers` | mythic_backend/app/main.py:158 | a string is a parsed URL iff it is non-empty and some piece between commas strips to it |
| `Api.StrippedCount` | mythic_backend/app/main.py:158 | one string is kept per piece that does not strip to the empty string, counted independently from the front |
| `Api.ParseUrlsCount` | mythic_backend/app/main.py:158 | the number of parsed URLs is the number of pieces between commas that are not blank |
| `Api.ParsedUrlsAreClean` | mythic_backend/app/main.py:158 | every parsed URL is non-empty, has no comma and no whitespace at either end |
| `Api.ParseUrlsOfJoin` | mythic_backend/app/main.py:158 | a list of clean URLs joined with commas is parsed back into the same list |
| `Api.CountWhere` | mythic_backend/app/main.py:117-118 | the count is at most the number of items; it equals that number iff every item qualifies, and is 0 iff none does |
| `Api.CountWhereAppend` | mythic_backend/app/main.py:117-118 | the count over two lists put together is the sum of the counts |
| `Api.ScrapeStats` | mythic_backend/app/main.py:115-120 | `total_items` is the number of items, `processing_time_seconds` is the elapsed time, `profile_data` counts the items with a truthy username and `posts_with_comments` those with a post that has comments, each at most `total_items` |
| `Api.PollCalls` | mythic_backend/app/main.py:73-85 | each iteration calls `fetch_run` for the run; it calls `fetch_items`, once, with the run's dataset id and the request's limit, iff the status is SUCCEEDED and the dataset id is truthy |
| `Api.LoopCalls` | mythic_backend/app/main.py:71-85 | the calls of the first n iterations of a polling loop, iteration by iteration as `PollCalls` gives them: between n and 2n calls, each a `fetch_run` of the run or a `fetch_items` with the loop's limit |
| `Api.ScrapeStep` | mythic_backend/app/main.py:71-131 | a poll succeeds iff the status is SUCCEEDED, the dataset id is truthy and the items arrive; it waits iff the status is RUNNING or READY; a success carries the run id, the username, the cleaned URL, the fetched items and their stats at the current elapsed time |
| `Api.ScrapeDecision` | mythic_backend/app/main.py:133-139 | a success is returned and a wait polls again; an exception is retried iff at most 60 seconds have passed, and otherwise becomes a 500 wrapping it |
| `Api.StartScrape` | mythic_backend/app/main.py:41-141 | the actor gets the cleaned URL with limit 50; a failed start escapes the handler after that one call; otherwise the polling loop follows, and every later call is the one its polls made, in order |
| `Api.PollScrape` | mythic_backend/app/main.py:66-141 | between 1 and 60 polls, the k-th at 10·k seconds; every poll before the last says "poll again"; the last one decides, or all 60 said "poll again" and the answer is 408; the calls are exactly those of the polls made, with limit 50 |
| `Api.CommentsStep` | mythic_backend/app/main.py:184-224 | a poll succeeds iff the status is SUCCEEDED, the dataset id is truthy and the comments arrive; it waits iff the status is RUNNING or READY; a success carries the run id, reports `total_comments` as the number of comments and `posts_count` as the number of URLs, and `processing_time_seconds` as the elapsed time |
| `Api.CommentsDecision` | mythic_backend/app/main.py:228-230 | a success is returned; every exception becomes a 500 wrapping it at once; only a wait polls again |
| `Api.PollComments` | mythic_backend/app/main.py:184-226 | between 1 and 30 polls, the k-th at 10·k seconds; every poll before the last says "poll again"; the last one decides, or all 30 said "poll again" and the answer is a 500 wrapping the 408 timeout; every failure is a 500; the calls are exactly those of the polls made, so `fetch_items` is called with the dataset id and `results_limit` exactly when a poll reports SUCCEEDED with a dataset id |
| `Api.CommentsLimit` | mythic_backend/app/main.py:146 | `results_limit` is the requested value, or 100 when the request leaves it out |
| `Api.ScrapeComments` | mythic_backend/app/main.py:144-230 | `results_limit` is 100 unless the query gives one; an empty list or more than 50 URLs gives 400 before any call; otherwise the scraper gets the parsed URLs and that limit; a failed start is a 500; then the polling loop decides and makes exactly its polls' calls; a failure is never answered with anything but 400 or 500 |
| `Api.CommentsForUrls` | mythic_backend/app/main.py:157-230 | the same answers and calls for a URL list that is already parsed, with the limit given |
| `Scenarios.ScrapeAlwaysRunningTimesOut` | mythic_backend/app/main.py:66-141 | a run that stays RUNNING is polled 60 times and answered with 408 |
| `Scenarios.ScrapeRetriesEarlyFailure` | mythic_backend/app/main.py:123-139 | FAILED at 0 s is retried, and SUCCEEDED at 10 s then gives the payload with `processing_time_seconds` 10 |
| `Scenarios.ScrapeLateFailureIsFinal` | mythic_backend/app/main.py:123-135 | FAILED at 70 s ends the scrape with a 500 after 8 polls |
| `Scenarios.CommentsFailureIsImmediate` | mythic_backend/app/main.py:217-230 | FAILED on the first poll gives a 500 after that one poll; without a `results_limit` the calls are the scraper start with limit 100 and one `fetch_run` |
| `Scenarios.CommentsTimeoutBecomes500` | mythic_backend/app/main.py:180-230 | a run that stays RUNNING is polled 30 times and answered with a 500 wrapping the 408 |
| `Scenarios.NullDisplayUrlStillReadsChildren` | mythic_backend/app/services/downloader.py:63-88 | an Image item whose `displayUrl` key holds `null` is read as a bare post, and its child's URL is collected |
| `Scenarios.SaveAfterTwoRetries` | mythic_backend/app/services/downloader.py:111-135 | two transport errors and then a good body: three attempts, waits of 1 s and 2 s, the image saved |
| `Scenarios.SaveNotFound` | mythic_backend/app/services/downloader.py:140-145 | a 404 leaves the placeholder after one attempt, with no wait |
| `Scenarios.SaveExhausted` | mythic_backend/app/services/downloader.py:131-139 | four transport errors: waits of 1, 2 and 4 s, then the placeholder |

## Left out

- The web client that polls these endpoints is not modelled.
- `mythic_backend/app/services/ocr_service.py` and `mythic_backend/app/config.py` are not part of this model. The first wraps an OCR library that is not visible, plus a lazily started global reader. The second only loads settings.
- Downloader.DownloadPhotos: runs the downloads one after another, in index order. The source runs them concurrently, at most two at a time, from an event loop it detects or starts. Only the set of files is modelled, not the interleaving.
- Downloader.DownloadPhotos: the fallbacks for a whole-run failure are not modelled. These are the `successful == 0` placeholders and the critical-error placeholders. `download_with_semaphore` catches every exception, so the `successful == 0` branch cannot be reached.
- Downloader.Save: the placeholder image is always assumed to be created, and the image file always to be written. A failed drawing or a failed disk write is not modelled. The drawing itself is not modelled either; only the file name is kept.
- Downloader.Save: `mimetypes.guess_extension` is the parameter `guess`. The GET's URL, timeouts and redirects are not modelled. The answers for URL number i are the i-th script.
- Downloader.Save and Downloader.DownloadPhotos require the attempt script to cover every attempt the loop can make. The real transport always answers.
- Api.StartScrape, Api.PollScrape, Api.ScrapeComments, Api.CommentsForUrls and Api.PollComments require the poll script to cover the 60 (or 30) polls the loops can make.
- Payload: a string key whose JSON value is `null` is read as missing (`None`). Where the source tests the value's truthiness this is exact. Where it tests the key's presence, it is not: for a bare item's `displayUrl` and `images` (mythic_backend/app/services/downloader.py:63) the flag `nullPostKey` keeps the presence. For `statusMessage` (mythic_backend/app/main.py:124) it is not kept, so a present `null` gives the model's `UnknownError` where the source's message shows `None`. A `latestPosts` or `childPosts` key whose value is `null` can only be read as an empty list (`Some([])` and `[]`), and there the model differs from the source: iterating over `null` raises a TypeError (mythic_backend/app/services/downloader.py:33-34, 57, 85), and `download_photos` then leaves only `001_placeholder.jpg` (mythic_backend/app/services/downloader.py:259-263). The model instead skips that list and downloads the URLs of the other items. A non-list `images` value, a `null` `commentsCount` and other wrongly typed values are not modelled.
- Text.Lower: lower-cases ASCII letters only. Python's `str.lower` also maps non-ASCII letters.
- Api.UserIdentifier: inherits that limit of `Text.Lower`: for the username `ÄB` the source builds `user_äb` and the model `user_Äb`.
- Api.StartScrape: the `message` text of the success payload is left out, since it only repeats the item count. The writes of `user_meta.json` and `posts.json` are left out, including the `created_at` timestamp and a failure of those writes. `UserIdentifier` is modelled on its own, because it only appears in `user_meta.json`.
- Api.StartScrape: the URL is taken as the string the framework's URL type produced. Its normalisation is not modelled.
- Api.ScrapeComments: the write of `comments.json` is left out.
- Api: the text of HTTP error messages is not modelled, except the default FAILED message `UnknownError` of `start_scrape` (mythic_backend/app/main.py:124). The query-string parsing of FastAPI is not modelled beyond the default of `results_limit`. A wrapped exception keeps its structured cause (`Caught(fault)`) instead of `str(e)`.
- Routing, CORS, the `/health` endpoint, logging, `download_photos_async` and real sleeping are not modelled.
