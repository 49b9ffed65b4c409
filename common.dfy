/** Shared vocabulary of the pharmacy backend model: identifiers, optional and
    result values, and the shape of an HTTP error reply. */
module Common {

  /** Document identifiers (Mongo ObjectIds, kept as their hexadecimal text). */
  type ProductId = string
  type UserId = string
  type OrderId = string

  datatype Option<+T> = None | Some(value: T)

  datatype Result<+T, +E> = Ok(value: T) | Err(error: E)

  /** An error reply: the HTTP status code and the `message` field of its JSON body. */
  datatype Failure = Failure(code: int, message: string)

  /** JavaScript's `a || b` on two strings: an empty (or absent) `a` falls back to `b`. */
  function Or(a: string, b: string): string
  {
    if a != "" then a else b
  }

  predicate IsDigit(c: char)
  {
    '0' <= c <= '9'
  }

  predicate StartsWith(s: string, prefix: string)
  {
    |prefix| <= |s| && s[..|prefix|] == prefix
  }

  /** `w` occurs inside `s` starting at index `k`. */
  predicate OccursAt(s: string, w: string, k: int)
  {
    0 <= k <= |s| - |w| && s[k..k + |w|] == w
  }

  /** `w` occurs somewhere inside `s`. */
  ghost predicate Contains(s: string, w: string)
  {
    exists k :: OccursAt(s, w, k)
  }

  /** A word placed between two strings occurs right after the first. */
  lemma ContainsMiddle(a: string, w: string, b: string)
    ensures OccursAt(a + w + b, w, |a|)
    ensures Contains(a + w + b, w)
  {
    var s := a + w + b;
    assert s[|a|..|a| + |w|] == w;
    assert OccursAt(s, w, |a|);
  }
}
