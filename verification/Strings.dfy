/** Hex digits, regrouping of concatenations, and splitting a string at a separator. */
module Strings {
  import opened Outcomes

  type Nibble = n: int | 0 <= n < 16

  function HexDigit(n: Nibble): char { "0123456789abcdef"[n] }

  /** Either case is accepted. */
  function HexValue(c: char): Option<Nibble> {
    if '0' <= c <= '9' then Some(c as int - '0' as int)
    else if 'a' <= c <= 'f' then Some(c as int - 'a' as int + 10)
    else if 'A' <= c <= 'F' then Some(c as int - 'A' as int + 10)
    else None
  }

  predicate LowerHex(c: char) { '0' <= c <= '9' || 'a' <= c <= 'f' }

  lemma DigitRoundTrip(n: Nibble)
    ensures HexValue(HexDigit(n)) == Some(n) && LowerHex(HexDigit(n))
  {
  }

  lemma Regroup(a: string, b: string, c: string)
    ensures a + (b + c) == a + b + c && a + "" == a
  {
  }

  function Index(s: string, c: char): (i: nat)
    ensures i <= |s|
    ensures forall k :: 0 <= k < i ==> s[k] != c
    ensures i < |s| ==> s[i] == c
  {
    if s == [] || s[0] == c then 0 else 1 + Index(s[1..], c)
  }

  /** `strings.Split` with a one-character separator. */
  function Pieces(s: string, sep: char): (r: seq<string>)
    ensures r != []
    decreases |s|
  {
    var i := Index(s, sep);
    if i == |s| then [s] else [s[..i]] + Pieces(s[i + 1..], sep)
  }

  function Joined(parts: seq<string>, sep: char): string
    requires parts != []
  {
    if |parts| == 1 then parts[0] else parts[0] + ([sep] + Joined(parts[1..], sep))
  }

  lemma {:induction false} JoinPieces(s: string, sep: char)
    ensures Joined(Pieces(s, sep), sep) == s
    ensures forall k :: 0 <= k < |Pieces(s, sep)| ==> sep !in Pieces(s, sep)[k]
    decreases |s|
  {
    var i := Index(s, sep);
    if i < |s| {
      JoinPieces(s[i + 1..], sep);
      assert Pieces(s, sep)[1..] == Pieces(s[i + 1..], sep);
      assert s == s[..i] + ([sep] + s[i + 1..]);
    }
  }

  lemma PiecesCons(first: string, sep: char, rest: string)
    requires sep !in first
    ensures Pieces(first + ([sep] + rest), sep) == [first] + Pieces(rest, sep)
  {
    var s, n := first + ([sep] + rest), |first|;
    assert s[n] == sep && forall k :: 0 <= k < n ==> s[k] == first[k];
    assert Index(s, sep) == n;
    assert s[..n] == first && s[n + 1..] == rest;
  }

  lemma {:induction false} PiecesOfJoined(parts: seq<string>, sep: char)
    requires parts != [] && forall k :: 0 <= k < |parts| ==> sep !in parts[k]
    ensures Pieces(Joined(parts, sep), sep) == parts
    decreases |parts|
  {
    if |parts| == 1 {
      assert Index(parts[0], sep) == |parts[0]|;
    } else {
      PiecesOfJoined(parts[1..], sep);
      PiecesCons(parts[0], sep, Joined(parts[1..], sep));
    }
  }
}
