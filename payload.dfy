/**
 * The JSON records the Instagram scraper returns, reduced to the fields the
 * backend reads.  A field is `None` when its key is absent from the record and
 * `Some(v)` when it is present; Python's truthiness of a present string is
 * "non-empty", which `Truthy` states.
 */
module Payload {

  datatype Option<+T> = None | Some(value: T) {
    /** `dict.get(key, default)`: the value when present, else the default. */
    function GetOr(default: T): T {
      match this
      case Some(v) => v
      case None => default
    }
  }

  /** A string field that Python treats as true: present and non-empty. */
  predicate Truthy(s: Option<string>) {
    s.Some? && s.value != ""
  }

  /** A list field that Python treats as true: present and non-empty. */
  predicate NonEmptyList<T>(l: Option<seq<T>>) {
    l.Some? && l.value != []
  }

  /** One entry of a carousel post's `childPosts`. */
  datatype Child = Child(displayUrl: Option<string>)

  /**
   * A post, either an entry of a profile's `latestPosts` or a bare item of the
   * "posts" result type.  A missing `childPosts` is the empty list and a
   * missing `commentsCount` is 0, as the backend reads them with defaults.
   */
  datatype Post = Post(
    postType: Option<string>,
    displayUrl: Option<string>,
    images: Option<seq<string>>,
    childPosts: seq<Child>,
    commentsCount: int)

  /**
   * One item of the scraper's dataset.  `latestPosts` is present on profile
   * items; `own` holds the item's own post-shaped keys (`type`, `displayUrl`,
   * `images`, `childPosts`, `commentsCount`), used when the item is itself a post.
   * `nullPostKey` records a `displayUrl` or `images` key that is present with
   * the value `null`, which `own` reads as missing.
   */
  datatype Item = Item(username: Option<string>, latestPosts: Option<seq<Post>>, own: Post, nullPostKey: bool)
}
