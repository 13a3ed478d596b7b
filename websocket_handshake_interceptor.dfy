/** Identity extraction at the WebSocket handshake: a non-blank member header
    wins; otherwise the first `userUuid=` query parameter; otherwise the
    handshake is refused. */
module Handshake {
  import opened Base

  const UserKey := "userUuid="
  const AttributeKey := "userUuid"

  /** The characters `String.trim` strips: code point U+0020 and below. */
  predicate Trimmed(c: char) {
    c <= ' '
  }

  function TrimStart(s: string): (r: string)
    ensures |r| <= |s| && r == s[|s| - |r|..]
    ensures r != [] ==> !Trimmed(r[0])
    ensures forall k :: 0 <= k < |s| - |r| ==> Trimmed(s[k])
    decreases |s|
  {
    if s != [] && Trimmed(s[0]) then TrimStart(s[1..]) else s
  }

  function TrimEnd(s: string): (r: string)
    ensures |r| <= |s| && r == s[..|r|]
    ensures r != [] ==> !Trimmed(r[|r| - 1])
    ensures forall k :: |r| <= k < |s| ==> Trimmed(s[k])
    decreases |s|
  {
    if s != [] && Trimmed(s[|s| - 1]) then TrimEnd(s[..|s| - 1]) else s
  }

  /** `String.trim` */
  function Trim(s: string): (r: string)
    ensures r != [] ==> !Trimmed(r[0]) && !Trimmed(r[|r| - 1])
    ensures r == [] <==> forall k :: 0 <= k < |s| ==> Trimmed(s[k])
    ensures exists i, j ::
      && 0 <= i <= j <= |s| && r == s[i..j]
      && (forall k :: 0 <= k < i ==> Trimmed(s[k]))
      && (forall k :: j <= k < |s| ==> Trimmed(s[k]))
  {
    var t := TrimStart(s);
    var r := TrimEnd(t);
    assert r == [] ==> t == [];
    StrippedEnds(s, t, r);
    r
  }

  /** Stripping blanks from the front and then from the back leaves a slice
      of the text with only blanks outside it. */
  lemma StrippedEnds(s: string, t: string, r: string)
    requires |t| <= |s| && t == s[|s| - |t|..] && forall k :: 0 <= k < |s| - |t| ==> Trimmed(s[k])
    requires |r| <= |t| && r == t[..|r|] && forall k :: |r| <= k < |t| ==> Trimmed(t[k])
    ensures exists i, j ::
      && 0 <= i <= j <= |s| && r == s[i..j]
      && (forall k :: 0 <= k < i ==> Trimmed(s[k]))
      && (forall k :: j <= k < |s| ==> Trimmed(s[k]))
  {
    var i := |s| - |t|;
    var j := i + |r|;
    assert r == s[i..j];
    assert forall k :: j <= k < |s| ==> s[k] == t[k - i];
  }

  /** Trimming twice is trimming once. */
  lemma TrimIdempotent(s: string)
    ensures Trim(Trim(s)) == Trim(s)
  {
    var r := Trim(s);
    if r != [] {
      assert TrimStart(r) == r;
      assert TrimEnd(r) == r;
    }
  }

  /** The pieces of s between the separators `&`, empty ones included. */
  function SplitAll(s: string): (ps: seq<string>)
    ensures |ps| >= 1
    ensures StartsWith(s, ps[0])
    ensures forall i :: 0 <= i < |ps| ==> '&' !in ps[i]
    decreases |s|
  {
    if s == [] then [[]]
    else
      var rest := SplitAll(s[1..]);
      if s[0] == '&' then [[]] + rest
      else
        var ps := [[s[0]] + rest[0]] + rest[1..];
        assert forall i :: 1 <= i < |ps| ==> ps[i] == rest[i];
        ps
  }

  /** The pieces joined back with `&`. */
  function Join(ps: seq<string>): string
    requires |ps| >= 1
  {
    if |ps| == 1 then ps[0] else ps[0] + "&" + Join(ps[1..])
  }

  /** Splitting loses nothing: joining the pieces gives the text back. */
  lemma {:induction false} JoinSplitAll(s: string)
    ensures Join(SplitAll(s)) == s
    decreases |s|
  {
    if s != [] {
      var rest := SplitAll(s[1..]);
      JoinSplitAll(s[1..]);
      if s[0] == '&' {
        assert SplitAll(s)[1..] == rest;
      } else {
        var ps := SplitAll(s);
        if |rest| > 1 {
          assert ps[1..] == rest[1..];
        }
      }
    }
  }

  /** What `split("&")` keeps: text without a separator is its own single
      piece; otherwise trailing empty pieces are dropped. */
  function DropTrailingEmpty(ps: seq<string>): (r: seq<string>)
    ensures |r| <= |ps| && r == ps[..|r|]
    ensures r != [] ==> r[|r| - 1] != []
    ensures forall k :: |r| <= k < |ps| ==> ps[k] == []
  {
    if ps != [] && ps[|ps| - 1] == [] then DropTrailingEmpty(ps[..|ps| - 1]) else ps
  }

  function JavaSplit(s: string): seq<string> {
    if '&' !in s then [s] else DropTrailingEmpty(SplitAll(s))
  }

  /** The value of the first piece that starts with `userUuid=`. */
  function FirstUserValue(ps: seq<string>): (r: Option<string>)
    ensures r.None? <==> forall i :: 0 <= i < |ps| ==> !StartsWith(ps[i], UserKey)
    ensures r.Some? ==> exists i :: 0 <= i < |ps| && StartsWith(ps[i], UserKey) && r.value == ps[i][|UserKey|..]
                                   && forall j :: 0 <= j < i ==> !StartsWith(ps[j], UserKey)
  {
    if ps == [] then None
    else if StartsWith(ps[0], UserKey) then Some(ps[0][|UserKey|..])
    else
      var r := FirstUserValue(ps[1..]);
      assert r.Some? ==> exists i :: 0 <= i < |ps| && StartsWith(ps[i], UserKey) && r.value == ps[i][|UserKey|..]
                                   && forall j :: 0 <= j < i ==> !StartsWith(ps[j], UserKey) by {
        if r.Some? {
          var i :| 0 <= i < |ps[1..]| && StartsWith(ps[1..][i], UserKey) && r.value == ps[1..][i][|UserKey|..]
                   && forall j :: 0 <= j < i ==> !StartsWith(ps[1..][j], UserKey);
          assert forall j :: 0 <= j < i + 1 ==> !StartsWith(ps[j], UserKey) by {
            forall j | 0 <= j < i + 1 ensures !StartsWith(ps[j], UserKey) {
              if j > 0 { assert ps[j] == ps[1..][j - 1]; }
            }
          }
        }
      }
      assert r.None? ==> forall i :: 0 <= i < |ps| ==> !StartsWith(ps[i], UserKey) by {
        if r.None? {
          forall i | 0 <= i < |ps| ensures !StartsWith(ps[i], UserKey) {
            if i > 0 { assert ps[i] == ps[1..][i - 1]; }
          }
        }
      }
      r
  }

  /** Dropping empty pieces from the end never changes the first value, as
      an empty piece never starts with the key. */
  lemma {:induction false} FirstUserValuePrefix(ps: seq<string>, k: nat)
    requires k <= |ps| && forall j :: k <= j < |ps| ==> ps[j] == []
    ensures FirstUserValue(ps[..k]) == FirstUserValue(ps)
  {
    if k > 0 {
      assert ps[..k][0] == ps[0];
      assert ps[..k][1..] == ps[1..][..k - 1];
      FirstUserValuePrefix(ps[1..], k - 1);
    } else {
      assert forall i :: 0 <= i < |ps| ==> !StartsWith(ps[i], UserKey);
    }
  }

  /** Java's `split` finds the same value as the full list of pieces. */
  lemma JavaSplitUserValue(q: string)
    ensures FirstUserValue(JavaSplit(q)) == FirstUserValue(SplitAll(q))
  {
    if '&' in q {
      var ps := SplitAll(q);
      FirstUserValuePrefix(ps, |DropTrailingEmpty(ps)|);
    } else {
      assert SplitAll(q) == [q] by {
        SplitNoSeparator(q);
      }
    }
  }

  /** Text without a separator is one piece. */
  lemma {:induction false} SplitNoSeparator(s: string)
    requires '&' !in s
    ensures SplitAll(s) == [s]
    decreases |s|
  {
    if s != [] {
      assert '&' !in s[1..] by {
        forall i | 0 <= i < |s[1..]| ensures s[1..][i] != '&' { assert s[1..][i] == s[i + 1]; }
      }
      SplitNoSeparator(s[1..]);
      assert s == [s[0]] + s[1..];
    }
  }

  /** `extractUserUuid`, given the first `X-Member-UUID` header value and the
      decoded query string, None for a missing one. */
  function UserUuidFrom(header: Option<string>, query: Option<string>): (r: Option<string>)
    ensures header.Some? && Trim(header.value) != [] ==> r == Some(Trim(header.value))
    ensures (header.None? || Trim(header.value) == []) && query.None? ==> r.None?
    ensures (header.None? || Trim(header.value) == []) && query.Some? ==> r == FirstUserValue(JavaSplit(query.value))
  {
    if header.Some? && Trim(header.value) != [] then Some(Trim(header.value))
    else if query.Some? && Contains(query.value, UserKey) then FirstUserValue(JavaSplit(query.value))
    else if query.Some? then
      UserValueInQuery(query.value);
      None
    else None
  }

  /** A piece that starts with s1 makes the whole text contain s1. */
  lemma {:induction false} PieceContains(s: string, i: nat, key: string)
    requires i < |SplitAll(s)| && StartsWith(SplitAll(s)[i], key) && key != []
    ensures Contains(s, key)
    decreases |s|
  {
    var ps := SplitAll(s);
    if s != [] {
      var rest := SplitAll(s[1..]);
      if s[0] == '&' {
        if i == 0 {
          assert ps[0] == [];
        } else {
          assert ps[i] == rest[i - 1];
          PieceContains(s[1..], i - 1, key);
        }
      } else if i == 0 {
        assert s[..|ps[0]|] == ps[0];
        assert s[..|key|] == ps[0][..|key|];
      } else {
        assert ps[i] == rest[i];
        PieceContains(s[1..], i, key);
      }
    }
  }

  /** The `contains("userUuid=")` guard never changes the outcome: a piece
      starting with the key means the query contains it. */
  lemma UserValueInQuery(q: string)
    ensures FirstUserValue(JavaSplit(q)).Some? ==> Contains(q, UserKey)
  {
    var ps := JavaSplit(q);
    if FirstUserValue(ps).Some? {
      var i :| 0 <= i < |ps| && StartsWith(ps[i], UserKey);
      if '&' !in q {
        assert ps[i] == q;
        assert Contains(q, UserKey);
      } else {
        assert ps[i] == SplitAll(q)[i];
        PieceContains(q, i, UserKey);
      }
    }
  }

  /** The scan over the query's pieces, returning at the first one that
      starts with the key. */
  method ScanUserValue(params: seq<string>) returns (r: Option<string>)
    ensures r == FirstUserValue(params)
  {
    var i := 0;
    while i < |params|
      invariant 0 <= i <= |params|
      invariant FirstUserValue(params) == FirstUserValue(params[i..])
    {
      if StartsWith(params[i], UserKey) {
        return Some(params[i][|UserKey|..]);
      }
      assert params[i..][1..] == params[i + 1..];
      i := i + 1;
    }
    return None;
  }

  /** `extractUserUuid` as written: trimmed header, then the scan of the
      query's pieces. */
  method ExtractUserUuid(header: Option<string>, query: Option<string>) returns (r: Option<string>)
    ensures r == UserUuidFrom(header, query)
  {
    if header.Some? && Trim(header.value) != [] {
      return Some(Trim(header.value));
    }
    if query.Some? && Contains(query.value, UserKey) {
      r := ScanUserValue(JavaSplit(query.value));
      return;
    }
    return None;
  }

  /** The handshake's attribute map. */
  class HandshakeAttributes {
    var entries: map<string, string>

    constructor ()
      ensures entries == map[]
    {
      entries := map[];
    }
  }

  /** `beforeHandshake`: refuse without an identity, else record it. */
  method BeforeHandshake(header: Option<string>, query: Option<string>, attributes: HandshakeAttributes)
    returns (accepted: bool)
    modifies attributes
    ensures accepted <==> UserUuidFrom(header, query).Some?
    ensures !accepted ==> attributes.entries == old(attributes.entries)
    ensures accepted ==> attributes.entries == old(attributes.entries)[AttributeKey := UserUuidFrom(header, query).value]
  {
    var userUuid := ExtractUserUuid(header, query);
    if userUuid.None? {
      return false;
    }
    attributes.entries := attributes.entries[AttributeKey := userUuid.value];
    return true;
  }
}
