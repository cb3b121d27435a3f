/** Canonical JSON (internal/fingerprint): object keys sorted at every level, no
    white space, leaves printed by `json.Marshal`.  A value is what
    `json.Unmarshal` leaves in an `any`; a float64 is identified with the token it
    prints to. */
module Canonical {
  import opened KeyOrder
  import opened Outcomes
  import opened Strings

  predicate IsNumberToken(s: string) {
    s != [] && (IsDigit(s[0]) || s[0] == '-') && forall i :: 0 <= i < |s| ==> IsNumberChar(s[i])
  }
  predicate IsDigit(c: char) { '0' <= c <= '9' }
  predicate IsNumberChar(c: char) { IsDigit(c) || c == '-' || c == '+' || c == '.' || c == 'e' || c == 'E' }

  type NumberToken = s: string | IsNumberToken(s) witness "0"

  datatype Value =
    | Null
    | Bool(b: bool)
    | Number(token: NumberToken)
    | Text(text: string)
    | Array(items: seq<Value>)
    | Object(fields: map<string, Value>)

  // ---- printing

  function Hex4(n: int): string
    requires 0 <= n < 0x1_0000
  {
    [HexDigit(n / 16 / 16 / 16), HexDigit(n / 16 / 16 % 16), HexDigit(n / 16 % 16), HexDigit(n % 16)]
  }

  /** The letter of a two-character escape. */
  function ShortEscape(c: char): Option<char> {
    match c
    case '"' => Some('"')
    case '\\' => Some('\\')
    case '\U{08}' => Some('b')
    case '\U{0c}' => Some('f')
    case '\n' => Some('n')
    case '\r' => Some('r')
    case '\t' => Some('t')
    case _ => None
  }

  predicate EscapedByNumber(c: char) {
    c < ' ' || c == '<' || c == '>' || c == '&' || c == '\U{2028}' || c == '\U{2029}'
  }

  /** How `json.Marshal` writes one character of a string, HTML escaping included. */
  function Escape(c: char): string {
    if ShortEscape(c).Some? then ['\\', ShortEscape(c).value]
    else if EscapedByNumber(c) then ['\\', 'u'] + Hex4(c as int)
    else [c]
  }

  function EscapeAll(s: string): string {
    if s == [] then "" else Escape(s[0]) + EscapeAll(s[1..])
  }

  function Quote(s: string): string {
    "\"" + EscapeAll(s) + "\""
  }

  ghost function Canon(v: Value): string
    decreases v
  {
    match v
    case Null => "null"
    case Bool(b) => if b then "true" else "false"
    case Number(token) => token
    case Text(text) => Quote(text)
    case Array(items) => "[" + CanonItems(items) + "]"
    case Object(fields) => "{" + CanonMembers(v, Sorted(fields.Keys)) + "}"
  }

  ghost function CanonItems(items: seq<Value>): string
    decreases items
  {
    if items == [] then ""
    else if |items| == 1 then Canon(items[0])
    else Canon(items[0]) + "," + CanonItems(items[1..])
  }

  ghost function CanonMember(v: Value, k: string): string
    requires v.Object? && k in v.fields
    decreases v, 0
  {
    Quote(k) + ":" + Canon(v.fields[k])
  }

  ghost function CanonMembers(v: Value, ks: seq<string>): string
    requires v.Object? && forall k :: k in ks ==> k in v.fields
    decreases v, 1, |ks|
  {
    if ks == [] then ""
    else if |ks| == 1 then CanonMember(v, ks[0])
    else CanonMember(v, ks[0]) + "," + CanonMembers(v, ks[1..])
  }

  // ---- reading back

  /** What the letter after a backslash stands for. */
  function EscapedBy(letter: char): Option<char> {
    match letter
    case '"' => Some('"')
    case '\\' => Some('\\')
    case '/' => Some('/')
    case 'b' => Some('\U{08}')
    case 'f' => Some('\U{0c}')
    case 'n' => Some('\n')
    case 'r' => Some('\r')
    case 't' => Some('\t')
    case _ => None
  }

  /** One possibly escaped character, per section 7 of RFC 8259. */
  function ReadChar(s: string): (r: Option<(char, string)>)
    ensures r.Some? ==> |r.value.1| < |s|
  {
    if s == [] then None
    else if s[0] != '\\' then Some((s[0], s[1..]))
    else if |s| < 2 then None
    else if s[1] == 'u' then ReadHex4(s[2..])
    else match EscapedBy(s[1])
      case None => None
      case Some(c) => Some((c, s[2..]))
  }

  function ReadHex4(s: string): (r: Option<(char, string)>)
    ensures r.Some? ==> |r.value.1| < |s|
  {
    if |s| < 4 then None
    else match (HexValue(s[0]), HexValue(s[1]), HexValue(s[2]), HexValue(s[3]))
      case (Some(a), Some(b), Some(c), Some(d)) =>
        var n: int := 4096 * (a as int) + 256 * (b as int) + 16 * (c as int) + (d as int);
        if 0 <= n < 0xD800 || 0xE000 <= n < 0x1_0000 then Some((n as char, s[4..])) else None
      case _ => None
  }

  /** The rest of a string literal whose opening quote has been consumed. */
  function ReadText(s: string): (r: Option<(string, string)>)
    ensures r.Some? ==> |r.value.1| < |s|
    decreases |s|
  {
    if s == [] then None
    else if s[0] == '"' then Some(("", s[1..]))
    else match ReadChar(s)
      case None => None
      case Some((c, rest)) =>
        match ReadText(rest)
        case None => None
        case Some((text, rest')) => Some(([c] + text, rest'))
  }

  function NumberEnd(s: string): (n: nat)
    ensures n <= |s|
  {
    if s == [] || !IsNumberChar(s[0]) then 0 else 1 + NumberEnd(s[1..])
  }

  predicate StartsWith(s: string, c: char) {
    s != [] && s[0] == c
  }

  function ReadWord(s: string, word: string, v: Value): (r: Option<(Value, string)>)
    requires word != []
    ensures r.Some? ==> |r.value.1| < |s|
  {
    if HasPrefix(s, word) then Some((v, s[|word|..])) else None
  }

  function ReadNumber(s: string): (r: Option<(Value, string)>)
    ensures r.Some? ==> |r.value.1| < |s|
  {
    var n := NumberEnd(s);
    if IsNumberToken(s[..n]) then Some((Number(s[..n]), s[n..])) else None
  }

  function Read(s: string): (r: Option<(Value, string)>)
    ensures r.Some? ==> |r.value.1| < |s|
    decreases |s|, 0
  {
    if s == [] then None
    else if s[0] == 'n' then ReadWord(s, "null", Null)
    else if s[0] == 't' then ReadWord(s, "true", Bool(true))
    else if s[0] == 'f' then ReadWord(s, "false", Bool(false))
    else if s[0] == '"' then
      (match ReadText(s[1..])
       case None => None
       case Some((text, rest)) => Some((Text(text), rest)))
    else if s[0] == '[' then
      if StartsWith(s[1..], ']') then Some((Array([]), s[2..]))
      else (match ReadItems(s[1..])
            case None => None
            case Some((items, rest)) => Some((Array(items), rest)))
    else if s[0] == '{' then
      if StartsWith(s[1..], '}') then Some((Object(map[]), s[2..]))
      else (match ReadMembers(s[1..])
            case None => None
            case Some((fields, rest)) => Some((Object(fields), rest)))
    else ReadNumber(s)
  }

  /** Items up to and including the closing bracket. */
  function ReadItems(s: string): (r: Option<(seq<Value>, string)>)
    ensures r.Some? ==> |r.value.1| < |s|
    decreases |s|, 1
  {
    match Read(s)
    case None => None
    case Some((v, rest)) =>
      if StartsWith(rest, ']') then Some(([v], rest[1..]))
      else if StartsWith(rest, ',') then
        (match ReadItems(rest[1..])
         case None => None
         case Some((vs, rest')) => Some(([v] + vs, rest')))
      else None
  }

  /** Members up to and including the closing brace; the last of two equal keys wins. */
  function ReadMembers(s: string): (r: Option<(map<string, Value>, string)>)
    ensures r.Some? ==> |r.value.1| < |s|
    decreases |s|, 1
  {
    if !StartsWith(s, '"') then None
    else match ReadText(s[1..])
      case None => None
      case Some((k, rest)) => if StartsWith(rest, ':') then ReadMember(k, rest[1..]) else None
  }

  function ReadMember(k: string, s: string): (r: Option<(map<string, Value>, string)>)
    ensures r.Some? ==> |r.value.1| < |s|
    decreases |s|, 1
  {
    match Read(s)
    case None => None
    case Some((v, rest)) =>
      if StartsWith(rest, '}') then Some((map[k := v], rest[1..]))
      else if StartsWith(rest, ',') then
        (match ReadMembers(rest[1..])
         case None => None
         case Some((m, rest')) => Some((map[k := v] + m, rest')))
      else None
  }

  // ---- the bytes themselves

  /** Quote, backslash and five control characters have two-character escapes; the other control
      characters, the three that are special in HTML and the two Unicode line separators are written
      as "\\u" and four lower-case hex digits; everything else stands for itself. */
  lemma EscapesAre(c: char)
    ensures Escape('"') == "\\\"" && Escape('\\') == "\\\\" && Escape('\n') == "\\n" && Escape('\r') == "\\r"
    ensures Escape('\t') == "\\t" && Escape('\U{08}') == "\\b" && Escape('\U{0c}') == "\\f"
    ensures c in "<>&\U{2028}\U{2029}" || (c < ' ' && c !in "\n\r\t\U{08}\U{0c}") ==>
      Escape(c) == ['\\', 'u'] + Hex4(c as int)
    ensures c >= ' ' && c !in "\"\\<>&\U{2028}\U{2029}" ==> Escape(c) == [c]
  {
  }

  lemma Hex4Is(n: int)
    requires 0 <= n < 0x1_0000
    ensures n == 4096 * HexOf(Hex4(n)[0]) + 256 * HexOf(Hex4(n)[1]) + 16 * HexOf(Hex4(n)[2]) + HexOf(Hex4(n)[3])
  {
    var a, b, c, d := n / 16 / 16 / 16, n / 16 / 16 % 16, n / 16 % 16, n % 16;
    assert n == 4096 * a + 256 * b + 16 * c + d;
    DigitRoundTrip(a);
    DigitRoundTrip(b);
    DigitRoundTrip(c);
    DigitRoundTrip(d);
  }

  function HexOf(c: char): int { if HexValue(c).Some? then HexValue(c).value else 0 }

  /** Members come in ascending byte order of their keys, without any white space. */
  lemma TwoMembers(j: string, v: Value, k: string, w: Value)
    requires Le(j, k) && j != k
    ensures Canon(Object(map[k := w, j := v]))
         == "{" + (Quote(j) + ":" + Canon(v) + "," + (Quote(k) + ":" + Canon(w))) + "}"
  {
    var o := Object(map[k := w, j := v]);
    assert o.fields.Keys == {j, k};
    assert Increasing([j, k]);
    SortedIsUnique(Sorted({j, k}), [j, k]);
    assert [j, k][1..] == [k];
    assert CanonMembers(o, [k]) == CanonMember(o, k);
    assert CanonMembers(o, [j, k]) == CanonMember(o, j) + "," + CanonMembers(o, [k]);
  }

  // ---- unique decodability

  lemma HexRoundTrip(n: int, rest: string)
    requires 0 <= n < 0xD800
    ensures ReadHex4(Hex4(n) + rest) == Some((n as char, rest))
  {
    var a, b, c, d := n / 16 / 16 / 16, n / 16 / 16 % 16, n / 16 % 16, n % 16;
    assert n == 4096 * a + 256 * b + 16 * c + d;
    DigitRoundTrip(a);
    DigitRoundTrip(b);
    DigitRoundTrip(c);
    DigitRoundTrip(d);
    var s := Hex4(n) + rest;
    assert s[0] == HexDigit(a) && s[1] == HexDigit(b) && s[2] == HexDigit(c) && s[3] == HexDigit(d);
    assert s[4..] == rest;
  }

  lemma EscapeRoundTrip(c: char, rest: string)
    ensures Escape(c) != [] && Escape(c)[0] != '"'
    ensures ReadChar(Escape(c) + rest) == Some((c, rest))
  {
    var s := Escape(c) + rest;
    if ShortEscape(c).Some? {
      assert s[1] == ShortEscape(c).value;
      assert s[2..] == rest;
    } else if EscapedByNumber(c) {
      assert s[2..] == Hex4(c as int) + rest;
      HexRoundTrip(c as int, rest);
    } else {
      assert s[1..] == rest;
    }
  }

  lemma {:induction false} TextRoundTrip(text: string, rest: string)
    ensures ReadText(EscapeAll(text) + "\"" + rest) == Some((text, rest))
  {
    var s := EscapeAll(text) + "\"" + rest;
    if text == [] {
      assert s == ['"'] + rest;
      assert s[1..] == rest;
    } else {
      var tail := EscapeAll(text[1..]) + "\"" + rest;
      assert s == Escape(text[0]) + tail;
      EscapeRoundTrip(text[0], tail);
      assert s[0] == Escape(text[0])[0];
      assert text == [text[0]] + text[1..];
      TextRoundTrip(text[1..], rest);
    }
  }

  /** What may follow a complete value inside a document. */
  predicate Delimited(rest: string) {
    rest == [] || rest[0] == ',' || rest[0] == ']' || rest[0] == '}'
  }

  lemma {:induction false} NumberRoundTrip(token: string, rest: string)
    requires forall i :: 0 <= i < |token| ==> IsNumberChar(token[i])
    requires Delimited(rest)
    ensures NumberEnd(token + rest) == |token|
  {
    if token == [] {
      assert token + rest == rest;
    } else {
      assert (token + rest)[1..] == token[1..] + rest;
      NumberRoundTrip(token[1..], rest);
    }
  }

  lemma CanonStart(v: Value)
    ensures Canon(v) != [] && Canon(v)[0] != ']' && Canon(v)[0] != '}'
  {
  }

  lemma {:induction false} CanonItemsStart(items: seq<Value>)
    requires items != []
    ensures CanonItems(items) != [] && CanonItems(items)[0] != ']'
  {
    CanonStart(items[0]);
  }

  lemma WordRoundTrip(word: string, v: Value, rest: string)
    requires word != []
    ensures ReadWord(word + rest, word, v) == Some((v, rest))
  {
    var s := word + rest;
    assert s[..|word|] == word && s[|word|..] == rest;
  }

  lemma TokenRoundTrip(token: string, rest: string)
    requires IsNumberToken(token) && Delimited(rest)
    ensures ReadNumber(token + rest) == Some((Number(token), rest))
  {
    NumberRoundTrip(token, rest);
    var s := token + rest;
    assert s[..|token|] == token && s[|token|..] == rest;
  }

  lemma QuoteRoundTrip(text: string, rest: string)
    ensures Read(Quote(text) + rest) == Some((Text(text), rest))
  {
    var s := Quote(text) + rest;
    assert s[0] == '"' && s[1..] == EscapeAll(text) + "\"" + rest;
    TextRoundTrip(text, rest);
  }

  lemma LeafRoundTrip(v: Value, rest: string)
    requires !v.Array? && !v.Object? && Delimited(rest)
    ensures Read(Canon(v) + rest) == Some((v, rest))
  {
    var s := Canon(v) + rest;
    match v
    case Null => WordRoundTrip("null", v, rest);
    case Bool(b) => WordRoundTrip(if b then "true" else "false", v, rest);
    case Number(token) =>
      TokenRoundTrip(token, rest);
      assert s[0] == token[0];
    case Text(text) => QuoteRoundTrip(text, rest);
  }

  /** Reading a canonical value back returns that value and leaves the input after it
      untouched, whatever follows. */
  lemma {:induction false} RoundTrip(v: Value, rest: string)
    requires Delimited(rest)
    ensures Read(Canon(v) + rest) == Some((v, rest))
    decreases v
  {
    match v
    case Array(items) =>
      if items == [] {
        ReadsEmpty(v, rest);
      } else {
        ItemsRoundTrip(items, rest);
        ReadsItems(items, rest);
      }
    case Object(fields) =>
      var ks := Sorted(fields.Keys);
      if ks == [] {
        ReadsEmpty(v, rest);
      } else {
        MembersRoundTrip(v, ks, rest);
        assert Only(fields, ks) == fields;
        ReadsMembers(fields, CanonMembers(v, ks), rest);
      }
    case _ => LeafRoundTrip(v, rest);
  }

  lemma ReadsEmpty(v: Value, rest: string)
    requires v == Array([]) || (v.Object? && Sorted(v.fields.Keys) == [])
    ensures Read(Canon(v) + rest) == Some((v, rest))
  {
    var s := Canon(v) + rest;
    if v.Array? {
      assert CanonItems([]) == "";
    } else {
      assert v.fields == map[] by { assert |v.fields.Keys| == 0; }
      assert CanonMembers(v, []) == "";
    }
    assert s[2..] == rest;
  }

  lemma OpenBracket(body: string)
    requires !StartsWith(body, ']') && ReadItems(body).Some?
    ensures Read(['['] + body) == Some((Array(ReadItems(body).value.0), ReadItems(body).value.1))
  {
    assert (['['] + body)[1..] == body;
  }

  lemma OpenBrace(body: string)
    requires !StartsWith(body, '}') && ReadMembers(body).Some?
    ensures Read(['{'] + body) == Some((Object(ReadMembers(body).value.0), ReadMembers(body).value.1))
  {
    assert (['{'] + body)[1..] == body;
  }

  lemma ReadsItems(items: seq<Value>, rest: string)
    requires items != []
    requires ReadItems(CanonItems(items) + "]" + rest) == Some((items, rest))
    ensures Read(Canon(Array(items)) + rest) == Some((Array(items), rest))
  {
    CanonItemsStart(items);
    var body := CanonItems(items) + "]" + rest;
    OpenBracket(body);
    assert Canon(Array(items)) + rest == ['['] + body;
  }

  lemma ReadsMembers(fields: map<string, Value>, members: string, rest: string)
    requires StartsWith(members, '"')
    requires ReadMembers(members + "}" + rest) == Some((fields, rest))
    ensures Read("{" + members + "}" + rest) == Some((Object(fields), rest))
  {
    var body := members + "}" + rest;
    OpenBrace(body);
    assert "{" + members + "}" + rest == ['{'] + body;
  }

  lemma LastItem(v: Value, s: string, rest: string)
    requires Read(s) == Some((v, "]" + rest))
    ensures ReadItems(s) == Some(([v], rest))
  {
    assert ("]" + rest)[1..] == rest;
  }

  lemma OneMoreItem(v: Value, s: string, tail: string, vs: seq<Value>, rest: string)
    requires Read(s) == Some((v, "," + tail)) && ReadItems(tail) == Some((vs, rest))
    ensures ReadItems(s) == Some(([v] + vs, rest))
  {
    assert ("," + tail)[1..] == tail;
  }

  /** What follows the first of several texts in a list that `close` ends. */
  function Following(others: string, close: string, rest: string): string {
    "," + (others + close + rest)
  }

  lemma ListText(first: string, others: string, close: string, rest: string)
    ensures first + "," + others + close + rest == first + Following(others, close, rest)
  {
    Regroup(first, "," + others, close + rest);
    Regroup(first + "," + others, close, rest);
    Regroup(first, ",", others);
    Regroup(",", others, close + rest);
    Regroup(others, close, rest);
  }

  lemma {:induction false} ItemsRoundTrip(items: seq<Value>, rest: string)
    requires items != []
    ensures ReadItems(CanonItems(items) + "]" + rest) == Some((items, rest))
    decreases items
  {
    var first := Canon(items[0]);
    if |items| == 1 {
      Regroup(first, "]", rest);
      RoundTrip(items[0], "]" + rest);
      LastItem(items[0], first + ("]" + rest), rest);
      assert items == [items[0]];
    } else {
      var others := CanonItems(items[1..]);
      ListText(first, others, "]", rest);
      RoundTrip(items[0], Following(others, "]", rest));
      ItemsRoundTrip(items[1..], rest);
      OneMoreItem(items[0], first + Following(others, "]", rest), others + "]" + rest, items[1..], rest);
      assert items == [items[0]] + items[1..];
    }
  }

  ghost function Only(m: map<string, Value>, ks: seq<string>): map<string, Value> {
    map k | k in m && k in ks :: m[k]
  }

  lemma KeyText(key: string, text: string, after: string)
    ensures ("\"" + key + "\"" + ":" + text + after)[1..] == key + "\"" + ([':'] + (text + after))
  {
  }

  lemma KeyReads(v: Value, k: string, after: string)
    requires v.Object? && k in v.fields
    ensures ReadMembers(CanonMember(v, k) + after) == ReadMember(k, Canon(v.fields[k]) + after)
  {
    var text := Canon(v.fields[k]);
    var rest := [':'] + (text + after);
    KeyText(EscapeAll(k), text, after);
    TextRoundTrip(k, rest);
    assert rest[1..] == text + after;
  }

  lemma LastMember(k: string, v: Value, s: string, rest: string)
    requires Read(s) == Some((v, "}" + rest))
    ensures ReadMember(k, s) == Some((map[k := v], rest))
  {
    assert ("}" + rest)[1..] == rest;
  }

  lemma OneMoreMember(k: string, v: Value, s: string, tail: string, m: map<string, Value>, rest: string)
    requires Read(s) == Some((v, "," + tail)) && ReadMembers(tail) == Some((m, rest))
    ensures ReadMember(k, s) == Some((map[k := v] + m, rest))
  {
    assert ("," + tail)[1..] == tail;
  }

  ghost function AfterFirst(v: Value, ks: seq<string>, rest: string): string
    requires v.Object? && ks != [] && forall k :: k in ks ==> k in v.fields
  {
    if |ks| == 1 then "}" + rest else Following(CanonMembers(v, ks[1..]), "}", rest)
  }

  lemma MembersText(v: Value, ks: seq<string>, rest: string)
    requires v.Object? && ks != [] && forall k :: k in ks ==> k in v.fields
    ensures CanonMembers(v, ks) + "}" + rest == CanonMember(v, ks[0]) + AfterFirst(v, ks, rest)
    ensures StartsWith(CanonMembers(v, ks), '"')
  {
    var first := CanonMember(v, ks[0]);
    assert StartsWith(first, '"');
    if |ks| == 1 {
      Regroup(first, "}", rest);
    } else {
      ListText(first, CanonMembers(v, ks[1..]), "}", rest);
    }
  }

  lemma {:induction false} MembersRoundTrip(v: Value, ks: seq<string>, rest: string)
    requires v.Object? && ks != [] && Increasing(ks)
    requires forall k :: k in ks ==> k in v.fields
    ensures ReadMembers(CanonMembers(v, ks) + "}" + rest) == Some((Only(v.fields, ks), rest))
    ensures StartsWith(CanonMembers(v, ks), '"')
    decreases v, |ks|
  {
    var k, after := ks[0], AfterFirst(v, ks, rest);
    var text := Canon(v.fields[k]) + after;
    MembersText(v, ks, rest);
    RoundTrip(v.fields[k], after);
    KeyReads(v, k, after);
    if |ks| == 1 {
      LastMember(k, v.fields[k], text, rest);
      assert Only(v.fields, ks) == map[k := v.fields[k]];
    } else {
      MembersRoundTrip(v, ks[1..], rest);
      OneMoreMember(k, v.fields[k], text, CanonMembers(v, ks[1..]) + "}" + rest, Only(v.fields, ks[1..]), rest);
      OnlyCons(v.fields, ks);
    }
  }

  lemma OnlyCons(m: map<string, Value>, ks: seq<string>)
    requires Increasing(ks) && ks != [] && ks[0] in m
    ensures Only(m, ks) == map[ks[0] := m[ks[0]]] + Only(m, ks[1..])
  {
    TailElements(ks);
  }

  /** Equal canonical bytes mean equal values, and conversely. */
  lemma CanonInjective(v: Value, w: Value)
    ensures Canon(v) == Canon(w) <==> v == w
  {
    RoundTrip(v, "");
    RoundTrip(w, "");
    assert Canon(v) + "" == Canon(v) && Canon(w) + "" == Canon(w);
  }

  /** No canonical text continues another one at a delimiter: documents cannot be confused
      by splitting them in different places. */
  lemma CanonPrefixFree(v: Value, w: Value, a: string, b: string)
    requires Delimited(a) && Delimited(b)
    requires Canon(v) + a == Canon(w) + b
    ensures v == w && a == b
  {
    RoundTrip(v, a);
    RoundTrip(w, b);
  }

  // ---- the printer as the program runs it

  /** What is still to be written when the next separator and item are number `i`. */
  ghost function ItemsFrom(items: seq<Value>, i: nat): string
    requires i <= |items|
  {
    if i == |items| then "" else (if i > 0 then "," else "") + CanonItems(items[i..])
  }

  ghost function MembersFrom(v: Value, ks: seq<string>, i: nat): string
    requires v.Object? && i <= |ks| && forall k :: k in ks ==> k in v.fields
  {
    if i == |ks| then "" else (if i > 0 then "," else "") + CanonMembers(v, ks[i..])
  }

  lemma ItemsStep(items: seq<Value>, i: nat)
    requires i < |items|
    ensures ItemsFrom(items, i) == (if i > 0 then "," else "") + Canon(items[i]) + ItemsFrom(items, i + 1)
  {
    assert items[i..][1..] == items[i + 1..];
    if i + 1 < |items| {
      Regroup(Canon(items[i]), ",", CanonItems(items[i + 1..]));
    }
  }

  lemma MembersStep(v: Value, ks: seq<string>, i: nat)
    requires v.Object? && i < |ks| && forall k :: k in ks ==> k in v.fields
    ensures MembersFrom(v, ks, i) == (if i > 0 then "," else "") + CanonMember(v, ks[i]) + MembersFrom(v, ks, i + 1)
  {
    assert ks[i..][1..] == ks[i + 1..];
    if i + 1 < |ks| {
      Regroup(CanonMember(v, ks[i]), ",", CanonMembers(v, ks[i + 1..]));
    }
  }

  /** The keys of a Go map, in whatever order its iteration yields them. */
  method KeysOf(fields: map<string, Value>) returns (keys: seq<string>)
    ensures forall i, j :: 0 <= i < j < |keys| ==> keys[i] != keys[j]
    ensures (set k | k in keys) == fields.Keys
  {
    keys := [];
    var left := fields.Keys;
    while left != {}
      invariant left <= fields.Keys
      invariant forall i, j :: 0 <= i < j < |keys| ==> keys[i] != keys[j]
      invariant forall k :: k in keys <==> k in fields.Keys && k !in left
      decreases |left|
    {
      var k :| k in left;
      keys := keys + [k];
      left := left - {k};
    }
  }

  /** `canonicalize`: the buffer ends up holding `Canon(v)` whatever order the keys came in. */
  method Canonicalize(v: Value) returns (buf: string)
    ensures buf == Canon(v)
    decreases v
  {
    match v
    case Object(fields) => buf := CanonicalizeObject(v);
    case Array(items) => buf := CanonicalizeArray(items);
    case Null => buf := "null";
    case Bool(b) => buf := if b then "true" else "false";
    case Number(token) => buf := token;
    case Text(text) => buf := Quote(text);
  }

  method CanonicalizeObject(v: Value) returns (buf: string)
    requires v.Object?
    ensures buf == Canon(v)
    decreases v, 1
  {
    var keys := KeysOf(v.fields);
    var ks := SortStrings(keys);
    buf := CanonicalizeMembers(v, ks);
  }

  method CanonicalizeMembers(v: Value, ks: seq<string>) returns (buf: string)
    requires v.Object? && forall k :: k in ks ==> k in v.fields
    ensures buf == "{" + CanonMembers(v, ks) + "}"
    decreases v, 0
  {
    buf := "{";
    assert ks[0..] == ks;
    var i := 0;
    while i < |ks|
      invariant 0 <= i <= |ks|
      invariant buf + MembersFrom(v, ks, i) == "{" + CanonMembers(v, ks)
    {
      MembersStep(v, ks, i);
      var child := Canonicalize(v.fields[ks[i]]);
      var sep := if i > 0 then "," else "";
      var member := Quote(ks[i]) + ":" + child;
      AppendStep(buf, sep, member, MembersFrom(v, ks, i + 1));
      buf := buf + sep + member;
      i := i + 1;
    }
    AppendStep(buf, "", "", "");
    buf := buf + "}";
  }

  method CanonicalizeArray(items: seq<Value>) returns (buf: string)
    ensures buf == Canon(Array(items))
    decreases items
  {
    buf := "[";
    assert items[0..] == items;
    var i := 0;
    while i < |items|
      invariant 0 <= i <= |items|
      invariant buf + ItemsFrom(items, i) == "[" + CanonItems(items)
    {
      ItemsStep(items, i);
      var child := Canonicalize(items[i]);
      var sep := if i > 0 then "," else "";
      AppendStep(buf, sep, Canon(items[i]), ItemsFrom(items, i + 1));
      buf := buf + sep + child;
      i := i + 1;
    }
    AppendStep(buf, "", "", "");
    buf := buf + "]";
  }

  lemma AppendStep(before: string, sep: string, item: string, later: string)
    ensures before + (sep + item + later) == before + sep + item + later
    ensures before + "" == before
  {
  }
}
