/**
 * The photo downloader of the backend: which URLs of a scraped dataset are
 * downloaded (only photo posts, in a fixed order, de-duplicated, at most 50),
 * how one download is retried, and how the files are named.
 *
 * The HTTP transport is a script of per-attempt outcomes; the files written
 * are returned as a list of `SavedFile` records instead of being written.
 */
module Downloader {
  import opened Payload
  import opened FileNames

  const MaxPhotos: nat := 50
  const MinImageBytes: nat := 1024
  const DefaultRetries: int := 3
  const DefaultExtension: string := ".jpg"
  const PlaceholderSuffix: string := "_placeholder.jpg"

  // ───────────────────────── which URLs are collected ─────────────────────────

  /** `post.get("type", "Unknown")` */
  function TypeOf(p: Post): string {
    p.postType.GetOr("Unknown")
  }

  /** Only images and carousels are photos; videos, reels and untyped posts are not. */
  predicate IsPhotoPost(p: Post) {
    TypeOf(p) == "Image" || TypeOf(p) == "Sidecar"
  }

  function ChildUrl(c: Child): seq<string> {
    if Truthy(c.displayUrl) then [c.displayUrl.value] else []
  }

  /** The truthy `displayUrl`s of a carousel's children, in order. */
  function ChildUrls(children: seq<Child>): seq<string> {
    if children == [] then [] else ChildUrls(children[..|children| - 1]) + ChildUrl(children[|children| - 1])
  }

  function MainUrl(p: Post): seq<string> {
    if Truthy(p.displayUrl) then [p.displayUrl.value] else []
  }

  function GalleryUrls(p: Post): seq<string> {
    if NonEmptyList(p.images) then p.images.value else []
  }

  /** The URLs one post contributes: `displayUrl`, then `images`, then the children. */
  function PostUrls(p: Post): seq<string> {
    MainUrl(p) + GalleryUrls(p) + ChildUrls(p.childPosts)
  }

  function PhotoUrls(p: Post): seq<string> {
    if IsPhotoPost(p) then PostUrls(p) else []
  }

  /** The URLs of a profile's `latestPosts`, post by post. */
  function PostsUrls(posts: seq<Post>): seq<string> {
    if posts == [] then [] else PostsUrls(posts[..|posts| - 1]) + PhotoUrls(posts[|posts| - 1])
  }

  /** An item of the "posts" result type: it has a `displayUrl` or an `images` key, whatever its value. */
  predicate IsBarePost(item: Item) {
    item.own.displayUrl.Some? || item.own.images.Some? || item.nullPostKey
  }

  /** A profile item is read only through its `latestPosts`. */
  function ItemUrls(item: Item): seq<string> {
    if item.latestPosts.Some? then PostsUrls(item.latestPosts.value)
    else if IsBarePost(item) then PhotoUrls(item.own)
    else []
  }

  /** The list `urls` before de-duplication. */
  function RawUrls(items: seq<Item>): seq<string> {
    Flatten(items, ItemUrls)
  }

  /** The lists `f` gives for the elements of `xs`, put together in order. */
  function Flatten<T>(xs: seq<T>, f: T -> seq<string>): seq<string> {
    if xs == [] then [] else Flatten(xs[..|xs| - 1], f) + f(xs[|xs| - 1])
  }

  /** `u` is contributed by `item`: it comes from a photo post that the item's shape selects. */
  predicate Contributes(item: Item, u: string) {
    if item.latestPosts.Some? then
      exists p :: p in item.latestPosts.value && IsPhotoPost(p) && u in PostUrls(p)
    else
      IsBarePost(item) && IsPhotoPost(item.own) && u in PostUrls(item.own)
  }

  predicate NoDuplicates(s: seq<string>) {
    forall i, j :: 0 <= i < j < |s| ==> s[i] != s[j]
  }

  /** Keeps the first occurrence of every non-empty URL, in order. */
  function Dedupe(urls: seq<string>): seq<string> {
    if urls == [] then []
    else
      var prefix, u := urls[..|urls| - 1], urls[|urls| - 1];
      if u != "" && u !in prefix then Dedupe(prefix) + [u] else Dedupe(prefix)
  }

  /** The first 50 URLs, or all of them when there are fewer. */
  function Cap(urls: seq<string>): (r: seq<string>)
    ensures |r| == if |urls| > MaxPhotos then MaxPhotos else |urls|
    ensures r == urls[..|r|]
  {
    if |urls| > MaxPhotos then urls[..MaxPhotos] else urls
  }

  /** What `_collect_urls` returns. */
  function CollectedUrls(items: seq<Item>): seq<string> {
    Cap(Dedupe(RawUrls(items)))
  }

  // ───────────────────────── properties of the collection ─────────────────────

  lemma {:induction false} DedupeMembers(urls: seq<string>, x: string)
    ensures x in Dedupe(urls) <==> x != "" && x in urls
    decreases |urls|
  {
    if urls != [] {
      var prefix := urls[..|urls| - 1];
      assert urls == prefix + [urls[|urls| - 1]];
      DedupeMembers(prefix, x);
    }
  }

  lemma {:induction false} DedupeNoDuplicates(urls: seq<string>)
    ensures NoDuplicates(Dedupe(urls)) && "" !in Dedupe(urls)
    decreases |urls|
  {
    if urls != [] {
      var prefix, u := urls[..|urls| - 1], urls[|urls| - 1];
      DedupeNoDuplicates(prefix);
      DedupeMembers(prefix, u);
    }
  }

  /** A list already free of repeats and empty strings is left as it is. */
  lemma {:induction false} DedupeKeepsDistinct(urls: seq<string>)
    requires NoDuplicates(urls) && "" !in urls
    ensures Dedupe(urls) == urls
    decreases |urls|
  {
    if urls != [] {
      var prefix, u := urls[..|urls| - 1], urls[|urls| - 1];
      forall i | 0 <= i < |prefix|
        ensures prefix[i] != u && prefix[i] != ""
      {
        assert prefix[i] == urls[i];
      }
      DedupeKeepsDistinct(prefix);
      assert urls == prefix + [u];
    }
  }

  lemma DedupeIdempotent(urls: seq<string>)
    ensures Dedupe(Dedupe(urls)) == Dedupe(urls)
  {
    DedupeNoDuplicates(urls);
    DedupeKeepsDistinct(Dedupe(urls));
  }

  /** What is kept from a prefix is never changed by what follows it. */
  lemma {:induction false} DedupePrefixStable(a: seq<string>, b: seq<string>)
    ensures Dedupe(a) <= Dedupe(a + b)
    decreases |b|
  {
    if b == [] {
      assert a + b == a;
    } else {
      var b' := b[..|b| - 1];
      assert (a + b)[..|a + b| - 1] == a + b';
      DedupePrefixStable(a, b');
    }
  }

  /** A URL's first occurrence puts it right after what its prefix kept. */
  lemma DedupeFirstOccurrence(a: seq<string>, x: string, b: seq<string>)
    requires x != "" && x !in a
    ensures |Dedupe(a)| < |Dedupe(a + [x] + b)| && Dedupe(a + [x] + b)[|Dedupe(a)|] == x
  {
    assert (a + [x])[..|a|] == a;
    assert Dedupe(a + [x]) == Dedupe(a) + [x];
    DedupePrefixStable(a + [x], b);
  }

  /** A URL is among a carousel's child URLs iff some child has it as a truthy `displayUrl`. */
  lemma {:induction false} ChildUrlsMembers(children: seq<Child>, u: string)
    ensures u in ChildUrls(children) <==> exists c :: c in children && Truthy(c.displayUrl) && c.displayUrl.value == u
    decreases |children|
  {
    if children != [] {
      var prefix, last := children[..|children| - 1], children[|children| - 1];
      ChildUrlsMembers(prefix, u);
      assert forall c :: c in children <==> c in prefix || c == last;
    }
  }

  lemma {:induction false} ChildUrlsOfPrefix(children: seq<Child>, j: nat)
    requires j < |children|
    ensures ChildUrls(children[..j + 1]) == ChildUrls(children[..j]) + ChildUrl(children[j])
  {
    assert children[..j + 1][..j] == children[..j];
  }

  lemma {:induction false} PostsUrlsMembers(posts: seq<Post>, u: string)
    ensures u in PostsUrls(posts) <==> exists p :: p in posts && IsPhotoPost(p) && u in PostUrls(p)
    decreases |posts|
  {
    if posts != [] {
      var prefix, last := posts[..|posts| - 1], posts[|posts| - 1];
      PostsUrlsMembers(prefix, u);
      assert forall p :: p in posts <==> p in prefix || p == last;
    }
  }

  lemma ItemUrlsMembers(item: Item, u: string)
    ensures u in ItemUrls(item) <==> Contributes(item, u)
  {
    if item.latestPosts.Some? {
      PostsUrlsMembers(item.latestPosts.value, u);
    }
  }

  /** A string is in the flattened list iff some element's list holds it. */
  lemma {:induction false} FlattenMembers<T>(xs: seq<T>, f: T -> seq<string>, u: string)
    ensures u in Flatten(xs, f) <==> exists k :: 0 <= k < |xs| && u in f(xs[k])
    decreases |xs|
  {
    if xs != [] {
      var n := |xs| - 1;
      var prefix := xs[..n];
      FlattenMembers(prefix, f, u);
      if exists k :: 0 <= k < |xs| && u in f(xs[k]) {
        var k :| 0 <= k < |xs| && u in f(xs[k]);
        if k < n { assert prefix[k] == xs[k]; }
      }
      if exists k :: 0 <= k < n && u in f(prefix[k]) {
        var k :| 0 <= k < n && u in f(prefix[k]);
        assert xs[k] == prefix[k];
      }
    }
  }

  /** A URL is collected before de-duplication iff some item contributes it. */
  lemma RawUrlsMembers(items: seq<Item>, u: string)
    ensures u in RawUrls(items) <==> exists k :: 0 <= k < |items| && Contributes(items[k], u)
  {
    FlattenMembers(items, ItemUrls, u);
    forall k | 0 <= k < |items|
      ensures u in ItemUrls(items[k]) <==> Contributes(items[k], u)
    {
      ItemUrlsMembers(items[k], u);
    }
  }

  /**
   * The collected list holds at most 50 distinct non-empty URLs, each taken
   * from an Image or Sidecar post; every contributed URL is kept unless the
   * cap cut the de-duplicated list.
   */
  lemma CollectedUrlsProperties(items: seq<Item>)
    ensures var r := CollectedUrls(items);
      && |r| <= MaxPhotos
      && NoDuplicates(r) && "" !in r
      && (forall u :: u in r ==> exists k :: 0 <= k < |items| && Contributes(items[k], u))
      && (|Dedupe(RawUrls(items))| <= MaxPhotos ==>
            forall k, u :: 0 <= k < |items| && Contributes(items[k], u) && u != "" ==> u in r)
  {
    var d := Dedupe(RawUrls(items));
    var r := CollectedUrls(items);
    DedupeNoDuplicates(RawUrls(items));
    assert r <= d;
    forall u | u in r
      ensures exists k :: 0 <= k < |items| && Contributes(items[k], u)
    {
      DedupeMembers(RawUrls(items), u);
      RawUrlsMembers(items, u);
    }
    forall k, u | 0 <= k < |items| && Contributes(items[k], u) && u != "" && |d| <= MaxPhotos
      ensures u in r
    {
      RawUrlsMembers(items, u);
      DedupeMembers(RawUrls(items), u);
    }
  }

  // ───────────────────────── the collecting loops ─────────────────────────────

  /** Appends one photo post's URLs: the display URL, the gallery, then each child. */
  method AppendPostUrls(urls: seq<string>, post: Post) returns (urls': seq<string>)
    ensures urls' == urls + PostUrls(post)
  {
    urls' := urls;
    if Truthy(post.displayUrl) {
      urls' := urls' + [post.displayUrl.value];
    }
    ghost var main := urls';
    assert main == urls + MainUrl(post);
    if NonEmptyList(post.images) {
      urls' := urls' + post.images.value;
    }
    assert urls' == main + GalleryUrls(post);
    ghost var head := urls';
    var children := post.childPosts;
    for j := 0 to |children|
      invariant urls' == head + ChildUrls(children[..j])
    {
      ghost var before := urls';
      if Truthy(children[j].displayUrl) {
        urls' := urls' + [children[j].displayUrl.value];
      }
      assert urls' == before + ChildUrl(children[j]);
      ChildUrlsOfPrefix(children, j);
      Associative(head, ChildUrls(children[..j]), ChildUrl(children[j]));
    }
    assert children[..|children|] == children;
    Associative(urls, MainUrl(post), GalleryUrls(post));
    Associative(urls, MainUrl(post) + GalleryUrls(post), ChildUrls(post.childPosts));
  }

  lemma Associative<T>(a: seq<T>, b: seq<T>, c: seq<T>)
    ensures a + b + c == a + (b + c)
  {
  }

  /** The loop over a profile's `latestPosts`, skipping posts that are not photos. */
  method AppendProfilePosts(urls: seq<string>, posts: seq<Post>) returns (urls': seq<string>)
    ensures urls' == urls + PostsUrls(posts)
  {
    urls' := urls;
    for j := 0 to |posts|
      invariant urls' == urls + PostsUrls(posts[..j])
    {
      PostsUrlsStep(posts, j);
      ghost var before := urls';
      if IsPhotoPost(posts[j]) {
        urls' := AppendPostUrls(urls', posts[j]);
      }
      assert urls' == before + PhotoUrls(posts[j]);
      Associative(urls, PostsUrls(posts[..j]), PhotoUrls(posts[j]));
    }
    assert posts[..|posts|] == posts;
  }

  lemma PostsUrlsStep(posts: seq<Post>, j: nat)
    requires j < |posts|
    ensures PostsUrls(posts[..j + 1]) == PostsUrls(posts[..j]) + PhotoUrls(posts[j])
  {
    assert posts[..j + 1][..j] == posts[..j];
  }

  /** The de-duplicating loop with its `seen` set. */
  method KeepFirstOccurrences(urls: seq<string>) returns (out: seq<string>)
    ensures out == Dedupe(urls)
  {
    var seen: set<string> := {};
    out := [];
    for i := 0 to |urls|
      invariant out == Dedupe(urls[..i])
      invariant forall x :: x in seen <==> x != "" && x in urls[..i]
    {
      var u := urls[i];
      assert urls[..i + 1][..i] == urls[..i];
      assert urls[..i + 1] == urls[..i] + [u];
      if u != "" && u !in seen {
        out := out + [u];
        seen := seen + {u};
      }
    }
    assert urls[..|urls|] == urls;
  }

  /** `_collect_urls`: gather, de-duplicate keeping first occurrences, cap at 50. */
  method CollectUrls(items: seq<Item>) returns (out: seq<string>)
    ensures out == CollectedUrls(items)
    ensures |out| <= MaxPhotos && NoDuplicates(out) && "" !in out
  {
    var urls: seq<string> := [];
    for i := 0 to |items|
      invariant urls == RawUrls(items[..i])
    {
      var item := items[i];
      assert items[..i + 1][..i] == items[..i];
      if item.latestPosts.Some? {
        urls := AppendProfilePosts(urls, item.latestPosts.value);
      } else if IsBarePost(item) {
        if IsPhotoPost(item.own) {
          urls := AppendPostUrls(urls, item.own);
        }
      }
    }
    assert items[..|items|] == items;
    out := KeepFirstOccurrences(urls);
    DedupeNoDuplicates(urls);
    if |out| > MaxPhotos {
      out := out[..MaxPhotos];
    }
  }

  // ───────────────────────── one download with retries ────────────────────────

  /** The outcome of one GET attempt, as the transport reports it. */
  datatype Attempt =
    | TransportError                                   // httpx ConnectError, TimeoutException, RequestError
    | Reply(status: int, size: nat, contentType: string)  // a response: status, body length, Content-Type ("" if absent)
    | OtherError                                       // any other exception

  /** A file the downloader leaves in the folder, named by its 1-based index. */
  datatype SavedFile = Image(index: nat, ext: string) | Placeholder(index: nat) {
    function Name(): string {
      match this
      case Image(i, e) => Pad3(i) + e
      case Placeholder(i) => Pad3(i) + PlaceholderSuffix
    }
  }

  /** The extension guessed from the Content-Type, falling back to ".jpg". */
  function Extension(contentType: string, guess: string -> Option<string>): (ext: string)
    ensures ext != ""
    ensures Truthy(guess(contentType)) ==> ext == guess(contentType).value
    ensures !Truthy(guess(contentType)) ==> ext == DefaultExtension
  {
    var g := guess(contentType);
    if Truthy(g) then g.value else DefaultExtension
  }

  /** What one attempt decides before the retry budget is consulted. */
  datatype Verdict = Retry | Keep(ext: string) | Fallback

  function Judge(a: Attempt, guess: string -> Option<string>): Verdict {
    match a
    case TransportError => Retry
    case OtherError => Fallback
    case Reply(status, size, contentType) =>
      if status < 200 || 300 <= status then Fallback  // raise_for_status: any HTTP status error
      else if size < MinImageBytes then Fallback      // too small to be an image
      else Keep(Extension(contentType, guess))
  }

  function FileFor(v: Verdict, idx: nat): SavedFile {
    if v.Keep? then Image(idx, v.ext) else Placeholder(idx)
  }

  function Pow2(k: nat): (p: nat)
    ensures p >= 1
  {
    if k == 0 then 1 else 2 * Pow2(k - 1)
  }

  /** The waits before retries 1..n: 1, 2, 4, ... seconds. */
  function Backoff(n: nat): (d: seq<nat>)
    ensures |d| == n
  {
    if n == 0 then [] else Backoff(n - 1) + [Pow2(n - 1)]
  }

  function Sum(s: seq<nat>): nat {
    if s == [] then 0 else Sum(s[..|s| - 1]) + s[|s| - 1]
  }

  /**
   * The retry loop over `script` ended after `tries` attempts with `file`:
   * every attempt before the last asked for a retry, and the last either
   * decided or used up the budget of `maxRetries + 1` attempts.
   */
  predicate SaveEndsWith(idx: nat, maxRetries: int, script: seq<Attempt>, guess: string -> Option<string>,
                         file: Option<SavedFile>, tries: nat)
    requires |script| > maxRetries
  {
    if maxRetries < 0 then tries == 0 && file == None
    else
      && 1 <= tries <= maxRetries + 1
      && (forall a :: 0 <= a < tries - 1 ==> Judge(script[a], guess).Retry?)
      && (Judge(script[tries - 1], guess).Retry? ==> tries == maxRetries + 1)
      && file == Some(FileFor(Judge(script[tries - 1], guess), idx))
  }

  /**
   * `_save`: at most `maxRetries + 1` GETs; only transport errors are retried,
   * after waiting 2^attempt seconds; everything else ends at once with the
   * image or a placeholder, and so does the last failed retry.
   */
  method Save(idx: nat, maxRetries: int, script: seq<Attempt>, guess: string -> Option<string>)
    returns (file: Option<SavedFile>, tries: nat, delays: seq<nat>)
    requires |script| > maxRetries  // the transport answers every attempt the loop can make
    ensures SaveEndsWith(idx, maxRetries, script, guess, file, tries)
    ensures delays == Backoff(if tries == 0 then 0 else tries - 1)
  {
    file, tries, delays := None, 0, [];
    var attempt := 0;
    while attempt < maxRetries + 1
      invariant 0 <= attempt <= if maxRetries < 0 then 0 else maxRetries + 1
      invariant tries == attempt
      invariant delays == Backoff(if 0 < attempt && maxRetries < attempt then attempt - 1 else attempt)
      invariant forall a :: 0 <= a < attempt ==> Judge(script[a], guess).Retry?
      invariant attempt <= maxRetries || maxRetries < 0 ==> file == None
      invariant 0 <= maxRetries && attempt == maxRetries + 1 ==> file == Some(Placeholder(idx))
    {
      tries := attempt + 1;
      var verdict := Judge(script[attempt], guess);
      match verdict {
        case Keep(ext) =>
          file := Some(Image(idx, ext));
          return;
        case Fallback =>
          file := Some(Placeholder(idx));
          return;
        case Retry =>
          if attempt < maxRetries {
            delays := delays + [Pow2(attempt)];
          } else {
            file := Some(Placeholder(idx));
          }
      }
      attempt := attempt + 1;
    }
    if maxRetries >= 0 {
      assert Judge(script[attempt - 1], guess).Retry?;
    }
  }

  // ───────────────────────── properties of one download ───────────────────────

  /** The loop's end state is determined by the script. */
  lemma SaveEndsWithUnique(idx: nat, maxRetries: int, script: seq<Attempt>, guess: string -> Option<string>,
                           f1: Option<SavedFile>, t1: nat, f2: Option<SavedFile>, t2: nat)
    requires |script| > maxRetries
    requires SaveEndsWith(idx, maxRetries, script, guess, f1, t1)
    requires SaveEndsWith(idx, maxRetries, script, guess, f2, t2)
    ensures f1 == f2 && t1 == t2
  {
    if maxRetries >= 0 && t1 != t2 {
      assert false;
    }
  }

  /** A too-small body, an HTTP status error or any other error stops after one attempt. */
  lemma NonTransientFailureIsFinal(idx: nat, maxRetries: int, script: seq<Attempt>, guess: string -> Option<string>,
                                   file: Option<SavedFile>, tries: nat)
    requires |script| > maxRetries >= 0
    requires script[0].OtherError? || (script[0].Reply? && (script[0].status / 100 != 2 || script[0].size < MinImageBytes))
    requires SaveEndsWith(idx, maxRetries, script, guess, file, tries)
    ensures tries == 1 && file == Some(Placeholder(idx))
  {
  }

  /** When every attempt hits a transport error the budget is used up and a placeholder is left. */
  lemma TransportErrorsExhaustBudget(idx: nat, maxRetries: int, script: seq<Attempt>, guess: string -> Option<string>,
                                     file: Option<SavedFile>, tries: nat)
    requires |script| > maxRetries >= 0
    requires forall a :: 0 <= a <= maxRetries ==> script[a].TransportError?
    requires SaveEndsWith(idx, maxRetries, script, guess, file, tries)
    ensures tries == maxRetries + 1 && file == Some(Placeholder(idx))
  {
    assert Judge(script[tries - 1], guess).Retry?;
  }

  /** The total wait of n retries is 2^n - 1 seconds: 7 s for the default three. */
  lemma {:induction false} BackoffTotal(n: nat)
    ensures Sum(Backoff(n)) == Pow2(n) - 1
  {
    if n > 0 {
      var b := Backoff(n);
      assert b[..|b| - 1] == Backoff(n - 1);
      BackoffTotal(n - 1);
    }
  }

  lemma DefaultBackoff()
    ensures Backoff(DefaultRetries) == [1, 2, 4]
  {
    assert Backoff(1) == [1];
    assert Backoff(2) == [1, 2];
  }

  // ───────────────────────── the whole download ───────────────────────────────

  /** `file` is what `_save` leaves for URL number k + 1 under the default retry budget. */
  ghost predicate DownloadedAs(idx: nat, script: seq<Attempt>, guess: string -> Option<string>, file: SavedFile)
    requires |script| > DefaultRetries
  {
    exists tries :: SaveEndsWith(idx, DefaultRetries, script, guess, Some(file), tries)
  }

  /** Under the default budget `_save` always leaves a file, named after its index. */
  lemma DefaultBudgetLeavesFile(idx: nat, script: seq<Attempt>, guess: string -> Option<string>,
                                file: Option<SavedFile>, tries: nat)
    requires |script| > DefaultRetries
    requires SaveEndsWith(idx, DefaultRetries, script, guess, file, tries)
    ensures file.Some? && file.value.index == idx && DownloadedAs(idx, script, guess, file.value)
  {
  }

  /** Files of different indices below 1000 have different names. */
  lemma DistinctIndicesDistinctNames(f: SavedFile, g: SavedFile)
    requires f.index < 1000 && g.index < 1000 && f.index != g.index
    ensures f.Name() != g.Name()
  {
    var x := if f.Image? then f.ext else PlaceholderSuffix;
    var y := if g.Image? then g.ext else PlaceholderSuffix;
    DistinctPrefixes(f.index, g.index, x, y);
  }

  /**
   * `download_photos`: URL number i (1-based, in collection order) is saved
   * with the default retry budget under index i, leaving exactly one file per
   * URL and no two files with the same name.  The downloads run one after
   * another here; `transport[i - 1]` is what the server answers for URL i.
   */
  method DownloadPhotos(items: seq<Item>, transport: seq<seq<Attempt>>, guess: string -> Option<string>)
    returns (files: seq<SavedFile>)
    requires |transport| >= MaxPhotos
    requires forall k :: 0 <= k < |transport| ==> |transport[k]| > DefaultRetries
    ensures |files| == |CollectedUrls(items)|
    ensures forall k :: 0 <= k < |files| ==> files[k].index == k + 1
    ensures forall k :: 0 <= k < |files| ==> DownloadedAs(k + 1, transport[k], guess, files[k])
    ensures forall k, l :: 0 <= k < l < |files| ==> files[k].Name() != files[l].Name()
  {
    var urls := CollectUrls(items);
    files := [];
    for i := 0 to |urls|
      invariant |files| == i
      invariant forall k :: 0 <= k < i ==> files[k].index == k + 1
      invariant forall k :: 0 <= k < i ==> DownloadedAs(k + 1, transport[k], guess, files[k])
    {
      var file, tries, _ := Save(i + 1, DefaultRetries, transport[i], guess);
      DefaultBudgetLeavesFile(i + 1, transport[i], guess, file, tries);
      ghost var prev := files;
      files := files + [file.value];
      forall k | 0 <= k < i + 1
        ensures files[k].index == k + 1 && DownloadedAs(k + 1, transport[k], guess, files[k])
      {
        if k < i {
          assert files[k] == prev[k];
        }
      }
    }
    NumberedFilesHaveDistinctNames(files);
  }

  /** Files numbered 1, 2, ... in order, fewer than 1000 of them, all have different names. */
  lemma NumberedFilesHaveDistinctNames(files: seq<SavedFile>)
    requires |files| < 1000
    requires forall k :: 0 <= k < |files| ==> files[k].index == k + 1
    ensures forall k, l :: 0 <= k < l < |files| ==> files[k].Name() != files[l].Name()
  {
    forall k, l | 0 <= k < l < |files|
      ensures files[k].Name() != files[l].Name()
    {
      DistinctIndicesDistinctNames(files[k], files[l]);
    }
  }
}
