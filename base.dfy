/** Shared vocabulary of the chat service model: optional values, results with
    an error side, identifier aliases and the few string operations the source
    takes from java.lang.String. */
module Base {

  /** A Java reference that may be null. */
  datatype Option<+T> = None | Some(value: T)

  /** The outcome of an operation that may throw. */
  datatype Result<+T, +E> = Success(value: T) | Failure(error: E)

  type UserId = string
  type SessionId = string
  type RoomId = string
  type MessageId = string

  /** A LocalDateTime; the core only ever compares and copies them. */
  type Timestamp = int

  /** `s.startsWith(prefix)` */
  predicate StartsWith(s: string, prefix: string) {
    |prefix| <= |s| && s[..|prefix|] == prefix
  }

  /** `s.contains(t)`: t occurs at some offset of s. */
  predicate Contains(s: string, t: string)
    decreases |s|
  {
    StartsWith(s, t) || (|s| > 0 && Contains(s[1..], t))
  }

  /** Occurrences of t in a suffix of s are occurrences in s. */
  lemma {:induction false} ContainsSuffix(s: string, k: nat, t: string)
    requires k <= |s| && Contains(s[k..], t)
    ensures Contains(s, t)
    decreases k
  {
    if k > 0 {
      assert s[1..][k - 1..] == s[k..];
      ContainsSuffix(s[1..], k - 1, t);
    }
  }

  /** `Contains` is Java's `contains`: t starts at some offset of s. */
  lemma {:induction false} ContainsOffset(s: string, t: string)
    ensures Contains(s, t) <==> exists k :: 0 <= k <= |s| && StartsWith(s[k..], t)
    decreases |s|
  {
    if exists k :: 0 <= k <= |s| && StartsWith(s[k..], t) {
      var k :| 0 <= k <= |s| && StartsWith(s[k..], t);
      ContainsSuffix(s, k, t);
    }
    if Contains(s, t) {
      if StartsWith(s, t) {
        assert s[0..] == s;
      } else {
        ContainsOffset(s[1..], t);
        var k :| 0 <= k <= |s[1..]| && StartsWith(s[1..][k..], t);
        assert s[1..][k..] == s[k + 1..];
      }
    }
  }
}
