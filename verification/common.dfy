/**
 * Shared vocabulary: optional values, JavaScript truthiness of optional
 * strings, thrown values, and a few sequence helpers used across modules.
 */
module Common {

  /** An optional value: a JSON field that may be absent, or a nullable. */
  datatype Option<+T> = None | Some(value: T)

  /** Success or failure with an error value. */
  datatype Result<+T, +E> = Ok(value: T) | Err(error: E)

  /**
   * A value a `catch` block can receive: an `Error` instance (with its
   * `message`) or anything else that was thrown.
   */
  datatype Thrown = ErrorObject(message: string) | NonError

  /** JavaScript truthiness of an optional string: present and non-empty. */
  predicate Truthy(s: Option<string>)
  {
    s.Some? && s.value != ""
  }

  /** `t` occurs in `s` starting at position `i`. */
  predicate OccursAt(s: string, t: string, i: int)
  {
    0 <= i && i + |t| <= |s| && s[i..i + |t|] == t
  }

  /** `t` occurs contiguously in `s`. */
  predicate Contains(s: string, t: string)
  {
    exists i | 0 <= i <= |s| :: OccursAt(s, t, i)
  }

  lemma ContainsPart(a: string, t: string, b: string)
    ensures Contains(a + t + b, t)
  {
    var s := a + t + b;
    assert s[|a|..|a| + |t|] == t;
    assert OccursAt(s, t, |a|);
  }
}
