/** The W3C traceparent header (internal/tracing/traceparent.go; section 3.2.2 of W3C Trace
    Context). */
module Traceparent {
  import opened Outcomes
  import opened Normalizer
  import opened Strings

  type Byte = n: int | 0 <= n < 256

  datatype SpanContext = SpanContext(traceId: string, spanId: string, flags: Byte)

  predicate IsHexId(s: string, n: nat) {
    && |s| == n
    && (forall i :: 0 <= i < n ==> LowerHex(s[i]))
    && exists i :: 0 <= i < n && s[i] != '0'
  }

  /** 32 and 16 lower-case hex digits, neither all zero. */
  predicate Valid(c: SpanContext) { IsHexId(c.traceId, 32) && IsHexId(c.spanId, 16) }

  const ZEROS := "00000000000000000000000000000000"

  method CheckValid(c: SpanContext) returns (ok: bool)
    ensures ok == Valid(c)
  {
    if |c.traceId| != 32 || |c.spanId| != 16 { return false; }
    NotAllZero(c.traceId);
    NotAllZero(c.spanId);
    assert ZEROS[..32] == ZEROS;
    if c.traceId == ZEROS || c.spanId == ZEROS[..16] { return false; }
    var s := c.traceId + c.spanId;
    var i := 0;
    while i < |s|
      invariant 0 <= i <= |s| && forall k :: 0 <= k < i ==> LowerHex(s[k])
    {
      if !LowerHex(s[i]) {
        assert i < 32 ==> c.traceId[i] == s[i];
        assert i >= 32 ==> c.spanId[i - 32] == s[i];
        return false;
      }
      i := i + 1;
    }
    assert forall k :: 0 <= k < 32 ==> c.traceId[k] == s[k];
    assert forall k :: 0 <= k < 16 ==> c.spanId[k] == s[k + 32];
    return true;
  }

  lemma NotAllZero(id: string)
    requires |id| <= 32
    ensures id != ZEROS[..|id|] <==> exists i :: 0 <= i < |id| && id[i] != '0'
  {
    if forall i :: 0 <= i < |id| ==> id[i] == '0' {
      assert id == ZEROS[..|id|];
    }
  }

  /** Which digits an id may have: the sixteen, in lower case. */
  lemma IdDigits(s: string, n: nat)
    requires IsHexId(s, n)
    ensures forall k :: 0 <= k < n ==> s[k] in "0123456789abcdef"
  {
    forall k | 0 <= k < n ensures s[k] in "0123456789abcdef" {
      LowerHexIs(s[k]);
    }
  }

  lemma LowerHexIs(c: char)
    ensures LowerHex(c) <==> c in "0123456789abcdef"
  {
    var digits := "0123456789abcdef";
    if '0' <= c <= '9' { assert digits[c as int - '0' as int] == c; }
    if 'a' <= c <= 'f' { assert digits[10 + c as int - 'a' as int] == c; }
  }

  // ---- hex

  /** `hex.DecodeString`, where one byte is asked for. */
  function DecodeByte(s: string): Option<Byte> {
    if |s| == 2 && HexValue(s[0]).Some? && HexValue(s[1]).Some?
    then Some(16 * HexValue(s[0]).value + HexValue(s[1]).value) else None
  }

  function EncodeByte(b: Byte): string { [HexDigit(b / 16), HexDigit(b % 16)] }

  lemma ByteRoundTrip(b: Byte)
    ensures DecodeByte(EncodeByte(b)) == Some(b)
  {
    DigitRoundTrip(b / 16);
    DigitRoundTrip(b % 16);
  }

  // ---- printing and parsing

  function Parts(c: SpanContext, flags: string): seq<string> { ["00", c.traceId, c.spanId, flags] }

  function Header(c: SpanContext): string { Spelled(c, EncodeByte(c.flags)) }

  /** The header of `c` with its flags spelled `flags`. */
  function Spelled(c: SpanContext, flags: string): string { Front(c) + flags }

  function Front(c: SpanContext): string { "00" + "-" + c.traceId + "-" + c.spanId + "-" }

  function Parse(t: Tables, header: string): Option<SpanContext> {
    var parts := Pieces(Trim(t, header), '-');
    if |parts| != 4 || parts[0] != "00" || DecodeByte(parts[3]).None? then None
    else
      var c := SpanContext(parts[1], parts[2], DecodeByte(parts[3]).value);
      if Valid(c) then Some(c) else None
  }

  lemma FourJoined(parts: seq<string>)
    requires |parts| == 4
    ensures Joined(parts, '-') == parts[0] + "-" + parts[1] + "-" + parts[2] + "-" + parts[3]
  {
    var tail := parts[1..];
    assert Joined(tail[1..], '-') == tail[1] + ("-" + tail[2]) by {
      assert Joined(tail[1..][1..], '-') == tail[2];
    }
    assert Joined(tail, '-') == tail[0] + ("-" + (tail[1] + ("-" + tail[2])));
    Associate(parts[0], parts[1], parts[2], parts[3]);
  }

  lemma Associate(a: string, b: string, c: string, d: string)
    ensures a + ("-" + (b + ("-" + (c + ("-" + d))))) == a + "-" + b + "-" + c + "-" + d
  {
  }

  lemma HexHasNoDash(s: string, n: nat)
    requires IsHexId(s, n)
    ensures '-' !in s
  {
  }

  lemma SpelledPieces(c: SpanContext, flags: string)
    requires Valid(c) && DecodeByte(flags).Some?
    ensures Pieces(Spelled(c, flags), '-') == Parts(c, flags)
  {
    HexHasNoDash(c.traceId, 32);
    HexHasNoDash(c.spanId, 16);
    FourJoined(Parts(c, flags));
    PiecesOfJoined(Parts(c, flags), '-');
  }

  /** A header is read as `c` exactly when `c` is valid and the trimmed header spells it, with
      the flags as two hex digits of either case. */
  lemma ParseIff(t: Tables, header: string, c: SpanContext)
    ensures Parse(t, header) == Some(c) <==>
      Valid(c) && exists flags :: DecodeByte(flags) == Some(c.flags) && Trim(t, header) == Spelled(c, flags)
  {
    var s := Trim(t, header);
    if Parse(t, header) == Some(c) {
      var parts := Pieces(s, '-');
      JoinPieces(s, '-');
      FourJoined(parts);
      assert DecodeByte(parts[3]) == Some(c.flags) && s == Spelled(c, parts[3]);
    }
    if Valid(c) && exists flags :: DecodeByte(flags) == Some(c.flags) && s == Spelled(c, flags) {
      var flags :| DecodeByte(flags) == Some(c.flags) && s == Spelled(c, flags);
      SpelledPieces(c, flags);
    }
  }

  /** Hex digits and the dash are not white space. */
  ghost predicate Sensible(t: Tables) {
    !t.space('-') && forall c :: LowerHex(c) ==> !t.space(c)
  }

  /** Printing and parsing back. */
  lemma RoundTrip(t: Tables, c: SpanContext)
    requires Sensible(t) && Valid(c)
    ensures Parse(t, Header(c)) == Some(c)
  {
    var flags := EncodeByte(c.flags);
    DigitRoundTrip(c.flags / 16);
    DigitRoundTrip(c.flags % 16);
    ByteRoundTrip(c.flags);
    var s := Spelled(c, flags);
    assert s[0] == '0' && s[|s| - 1] == flags[1];
    TrimKeeps(t, s);
    ParseIff(t, Header(c), c);
  }

  function Lowered(c: char): char {
    if 'A' <= c <= 'F' then (c as int - 'A' as int + 'a' as int) as char else c
  }

  lemma DigitsAgree(c: char, n: Nibble)
    requires HexValue(c) == Some(n)
    ensures HexDigit(n) == Lowered(c)
  {
  }

  lemma FlagsReprint(flags: string, b: Byte)
    requires DecodeByte(flags) == Some(b)
    ensures |flags| == 2 && EncodeByte(b) == [Lowered(flags[0]), Lowered(flags[1])]
  {
    var hi, lo := HexValue(flags[0]).value, HexValue(flags[1]).value;
    DigitsAgree(flags[0], hi);
    DigitsAgree(flags[1], lo);
    EncodeNibbles(hi, lo, b);
  }

  lemma EncodeNibbles(hi: Nibble, lo: Nibble, b: Byte)
    requires b == 16 * hi + lo
    ensures EncodeByte(b) == [HexDigit(hi), HexDigit(lo)]
  {
    assert b / 16 == hi && b % 16 == lo;
  }

  /** What is accepted prints back as the trimmed header, up to the case of the two flag digits. */
  lemma Reprint(t: Tables, header: string, c: SpanContext)
    requires Parse(t, header) == Some(c)
    ensures var s := Trim(t, header);
      && |s| == |Header(c)| == 55
      && Header(c)[..53] == s[..53]
      && Header(c)[53..] == [Lowered(s[53]), Lowered(s[54])]
  {
    ParseIff(t, header, c);
    var s := Trim(t, header);
    var flags :| DecodeByte(flags) == Some(c.flags) && s == Spelled(c, flags);
    FlagsReprint(flags, c.flags);
    SplitFront(c, flags);
    SplitFront(c, EncodeByte(c.flags));
  }

  lemma SplitFront(c: SpanContext, flags: string)
    requires Valid(c) && |flags| == 2
    ensures var s := Spelled(c, flags); |s| == 55 && s[..53] == Front(c) && s[53..] == [s[53], s[54]] == flags
  {
    assert |Front(c)| == 53;
  }
}
