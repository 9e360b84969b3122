/** Values shared by the clients and the service: optional values, results,
    the content item every collaborator exchanges, and the engagement rate. */
module Common {

  datatype Option<+T> = None | Some(value: T)

  datatype Result<+T, +E> = Ok(value: T) | Err(error: E)

  /** A content item as the video platform returns it and the service passes it on
      (the `ContentItem` record of main.py and the dicts of the clients). */
  datatype ContentItem = ContentItem(
    platform: string,
    externalId: string,
    url: string,
    title: string,
    views: int,
    likes: int,
    commentsCount: int)

  function Min(a: int, b: int): int { if a <= b then a else b }

  function Max(a: int, b: int): int { if a >= b then a else b }

  /** A count read as `int(x or 0)` or `.get(key, 0)`: `None` stands for a missing
      or falsy value and reads as 0. */
  function CountOrZero(c: Option<int>): int {
    if c.Some? then c.value else 0
  }

  /** A text field read as `.get(key, default)`. */
  function TextOr(s: Option<string>, default: string): string {
    if s.Some? then s.value else default
  }

  /** The engagement rate (likes + comments) / views, exact, and 0 when there are
      no (or a non-positive number of) views, so it never divides by zero. */
  function EngagementRate(views: int, likes: int, comments: int): (rate: real)
    ensures views > 0 ==> rate * views as real == (likes + comments) as real
    ensures views <= 0 ==> rate == 0.0
  {
    if views > 0 then (likes + comments) as real / views as real else 0.0
  }
}
