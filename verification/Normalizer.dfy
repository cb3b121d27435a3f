/** The string transforms of internal/normalizer.  Go maps case and tests for white
    space one rune at a time, so the Unicode tables appear here as three functions
    on characters; every law below says which facts about the tables it uses. */
module Normalizer {
  import opened Outcomes
  import opened Strings

  datatype Tables = Tables(lower: char -> char, upper: char -> char, space: char -> bool)

  /** Case mapping neither makes nor destroys white space. */
  ghost predicate KeepsSpaces(t: Tables) {
    && t.space(' ') && t.lower(' ') == ' ' && t.upper(' ') == ' '
    && SpaceSafe(t, t.lower) && SpaceSafe(t, t.upper)
  }

  /** The last case mapping applied to `c` is the only one that shows. */
  predicate CaseLawful(t: Tables, c: char) {
    && t.lower(t.lower(c)) == t.lower(c) && t.lower(t.upper(c)) == t.lower(c)
    && t.upper(t.upper(c)) == t.upper(c) && t.upper(t.lower(c)) == t.upper(c)
  }

  predicate AllCaseLawful(t: Tables, s: string) {
    forall i :: 0 <= i < |s| ==> CaseLawful(t, s[i])
  }

  // ---- trimming and collapsing

  function TrimLeft(t: Tables, s: string): string {
    if s != [] && t.space(s[0]) then TrimLeft(t, s[1..]) else s
  }

  function TrimRight(t: Tables, s: string): string {
    if s == [] then [] else
      var r := TrimRight(t, s[1..]);
      if r == [] && t.space(s[0]) then [] else [s[0]] + r
  }

  /** `strings.TrimSpace`. */
  function Trim(t: Tables, s: string): string {
    TrimRight(t, TrimLeft(t, s))
  }

  /** The text a collapsing scan still has to produce, by what it has produced so far:
      nothing, a word it is inside of, or a word followed by unwritten white space. */
  datatype Scan = AtStart | InWord | AfterWord

  function Collapsed(t: Tables, s: string, at: Scan): string {
    if s == [] then []
    else if t.space(s[0]) then Collapsed(t, s[1..], if at == AtStart then AtStart else AfterWord)
    else (if at == AfterWord then [' ', s[0]] else [s[0]]) + Collapsed(t, s[1..], InWord)
  }

  function Collapse(t: Tables, s: string): string {
    Collapsed(t, s, AtStart)
  }

  function MapCase(f: char -> char, s: string): (r: string)
    ensures |r| == |s| && forall i :: 0 <= i < |s| ==> r[i] == f(s[i])
  {
    if s == [] then [] else [f(s[0])] + MapCase(f, s[1..])
  }

  // ---- collapsing keeps exactly the words

  function WordLength(t: Tables, s: string): (n: nat)
    ensures n <= |s|
    ensures s != [] && !t.space(s[0]) ==> n > 0
  {
    if s == [] || t.space(s[0]) then 0 else 1 + WordLength(t, s[1..])
  }

  /** `strings.Fields`: the maximal runs of non-space characters. */
  function Words(t: Tables, s: string): seq<string>
    decreases |s|
  {
    if s == [] then []
    else if t.space(s[0]) then Words(t, s[1..])
    else var n := WordLength(t, s); [s[..n]] + Words(t, s[n..])
  }

  function Join(words: seq<string>): string {
    if words == [] then "" else if |words| == 1 then words[0] else words[0] + " " + Join(words[1..])
  }

  /** Inside a word everything up to the next white space is copied. */
  lemma {:induction false} CollapsedInWord(t: Tables, word: string, rest: string)
    requires forall j :: 0 <= j < |word| ==> !t.space(word[j])
    ensures Collapsed(t, word + rest, InWord) == word + Collapsed(t, rest, InWord)
  {
    if word == [] {
      assert word + rest == rest;
    } else {
      assert (word + rest)[1..] == word[1..] + rest;
      CollapsedInWord(t, word[1..], rest);
    }
  }

  lemma {:induction false} CollapsedIsJoin(t: Tables, s: string)
    ensures Collapse(t, s) == Join(Words(t, s))
    ensures Collapsed(t, s, AfterWord) == if Words(t, s) == [] then "" else " " + Join(Words(t, s))
    decreases |s|
  {
    if s == [] {
    } else if t.space(s[0]) {
      CollapsedIsJoin(t, s[1..]);
    } else {
      var n := WordLength(t, s);
      RunHasNoSpace(t, s);
      assert s[..n] + s[n..] == s;
      CollapsedInWord(t, s[..n], s[n..]);
      CollapsedAfterRun(t, s);
      CollapsedIsJoin(t, s[n..]);
      assert Words(t, s)[1..] == Words(t, s[n..]);
    }
  }

  /** At the end of a word only white space, or nothing, comes next. */
  lemma {:induction false} CollapsedAfterRun(t: Tables, s: string)
    ensures var rest := s[WordLength(t, s)..];
            Collapsed(t, rest, InWord) == Collapsed(t, rest, AfterWord)
  {
    if s != [] && !t.space(s[0]) {
      CollapsedAfterRun(t, s[1..]);
      assert s[1..][WordLength(t, s[1..])..] == s[WordLength(t, s)..];
    } else {
      assert s[0..] == s;
    }
  }

  ghost predicate AreWords(t: Tables, ws: seq<string>) {
    forall i :: 0 <= i < |ws| ==> ws[i] != [] && forall j :: 0 <= j < |ws[i]| ==> !t.space(ws[i][j])
  }

  lemma {:induction false} WordsAreWords(t: Tables, s: string)
    ensures AreWords(t, Words(t, s))
    decreases |s|
  {
    if s != [] && t.space(s[0]) {
      WordsAreWords(t, s[1..]);
    } else if s != [] {
      RunHasNoSpace(t, s);
      WordsAreWords(t, s[WordLength(t, s)..]);
    }
  }

  lemma {:induction false} RunHasNoSpace(t: Tables, s: string)
    ensures forall j :: 0 <= j < WordLength(t, s) ==> !t.space(s[j])
  {
    if s != [] && !t.space(s[0]) {
      RunHasNoSpace(t, s[1..]);
      forall j | 0 <= j < WordLength(t, s) ensures !t.space(s[j]) {
        if j > 0 { assert s[j] == s[1..][j - 1]; }
      }
    }
  }

  lemma {:induction false} RunStops(t: Tables, word: string, rest: string)
    requires forall j :: 0 <= j < |word| ==> !t.space(word[j])
    requires rest == [] || t.space(rest[0])
    ensures WordLength(t, word + rest) == |word|
  {
    if word == [] {
      assert word + rest == rest;
    } else {
      assert (word + rest)[1..] == word[1..] + rest;
      RunStops(t, word[1..], rest);
    }
  }

  lemma {:induction false} WordsOfJoin(t: Tables, ws: seq<string>)
    requires t.space(' ') && AreWords(t, ws)
    ensures Words(t, Join(ws)) == ws
  {
    if ws != [] {
      var rest := if |ws| == 1 then "" else " " + Join(ws[1..]);
      var s := ws[0] + rest;
      assert Join(ws) == s by {
        if |ws| > 1 { assert ws[0] + " " + Join(ws[1..]) == ws[0] + (" " + Join(ws[1..])); }
      }
      RunStops(t, ws[0], rest);
      assert s[0] == ws[0][0];
      assert s[..|ws[0]|] == ws[0] && s[|ws[0]|..] == rest;
      if |ws| > 1 {
        assert rest[1..] == Join(ws[1..]);
        WordsOfJoin(t, ws[1..]);
      }
      assert ws == [ws[0]] + ws[1..];
    }
  }

  /** Two texts collapse to the same text exactly when they hold the same words. */
  lemma CollapseIffSameWords(t: Tables, a: string, b: string)
    requires t.space(' ')
    ensures Collapse(t, a) == Collapse(t, b) <==> Words(t, a) == Words(t, b)
  {
    CollapsedIsJoin(t, a);
    CollapsedIsJoin(t, b);
    WordsAreWords(t, a);
    WordsAreWords(t, b);
    WordsOfJoin(t, Words(t, a));
    WordsOfJoin(t, Words(t, b));
  }

  // ---- how the transforms compose

  lemma {:induction false} TrimRightTwice(t: Tables, s: string)
    ensures TrimRight(t, TrimRight(t, s)) == TrimRight(t, s)
  {
    if s != [] {
      TrimRightTwice(t, s[1..]);
      var r := TrimRight(t, s);
      if r != [] { assert r[1..] == TrimRight(t, s[1..]); }
    }
  }

  /** Trimming the end leaves the first character alone unless nothing is left. */
  lemma TrimmedStart(t: Tables, s: string)
    requires s == [] || !t.space(s[0])
    ensures TrimLeft(t, TrimRight(t, s)) == TrimRight(t, s)
  {
  }

  lemma {:induction false} TrimLeftStops(t: Tables, s: string)
    ensures TrimLeft(t, s) == [] || !t.space(TrimLeft(t, s)[0])
  {
    if s != [] && t.space(s[0]) { TrimLeftStops(t, s[1..]); }
  }

  lemma TrimTwice(t: Tables, s: string)
    ensures Trim(t, Trim(t, s)) == Trim(t, s)
  {
    TrimLeftStops(t, s);
    TrimmedStart(t, TrimLeft(t, s));
    TrimRightTwice(t, TrimLeft(t, s));
  }

  lemma {:induction false} CollapsedTrimmed(t: Tables, s: string, at: Scan)
    ensures TrimRight(t, Collapsed(t, s, at)) == Collapsed(t, s, at)
    ensures at == AtStart ==> TrimLeft(t, Collapsed(t, s, at)) == Collapsed(t, s, at)
  {
    if s != [] && t.space(s[0]) {
      CollapsedTrimmed(t, s[1..], if at == AtStart then AtStart else AfterWord);
    } else if s != [] {
      CollapsedTrimmed(t, s[1..], InWord);
      var tail := Collapsed(t, s[1..], InWord);
      var r := Collapsed(t, s, at);
      if at == AfterWord {
        assert r[1..] == [s[0]] + tail;
        assert r[1..][1..] == tail;
      } else {
        assert r[1..] == tail;
      }
    }
  }

  lemma TrimCollapse(t: Tables, s: string)
    ensures Trim(t, Collapse(t, s)) == Collapse(t, s)
  {
    CollapsedTrimmed(t, s, AtStart);
  }

  lemma {:induction false} CollapsedTrimRight(t: Tables, s: string, at: Scan)
    ensures Collapsed(t, TrimRight(t, s), at) == Collapsed(t, s, at)
  {
    if s != [] {
      CollapsedTrimRight(t, s[1..], InWord);
      CollapsedTrimRight(t, s[1..], if at == AtStart then AtStart else AfterWord);
      var r := TrimRight(t, s);
      if r != [] { assert r[1..] == TrimRight(t, s[1..]); }
    }
  }

  lemma {:induction false} CollapseTrimLeft(t: Tables, s: string)
    ensures Collapse(t, TrimLeft(t, s)) == Collapse(t, s)
  {
    if s != [] && t.space(s[0]) { CollapseTrimLeft(t, s[1..]); }
  }

  lemma CollapseTrim(t: Tables, s: string)
    ensures Collapse(t, Trim(t, s)) == Collapse(t, s)
  {
    CollapsedTrimRight(t, TrimLeft(t, s), AtStart);
    CollapseTrimLeft(t, s);
  }

  lemma CollapseTwice(t: Tables, s: string)
    requires t.space(' ')
    ensures Collapse(t, Collapse(t, s)) == Collapse(t, s)
  {
    CollapsedIsJoin(t, s);
    WordsAreWords(t, s);
    WordsOfJoin(t, Words(t, s));
    CollapsedIsJoin(t, Collapse(t, s));
  }

  /** A character mapping that neither makes nor destroys white space. */
  ghost predicate SpaceSafe(t: Tables, f: char -> char) {
    f(' ') == ' ' && forall c {:trigger f(c)} :: t.space(f(c)) == t.space(c)
  }

  lemma {:induction false} MapTrimLeft(t: Tables, f: char -> char, s: string)
    requires SpaceSafe(t, f)
    ensures TrimLeft(t, MapCase(f, s)) == MapCase(f, TrimLeft(t, s))
  {
    if s != [] {
      assert MapCase(f, s)[1..] == MapCase(f, s[1..]);
      MapTrimLeft(t, f, s[1..]);
    }
  }

  lemma {:induction false} MapTrimRight(t: Tables, f: char -> char, s: string)
    requires SpaceSafe(t, f)
    ensures TrimRight(t, MapCase(f, s)) == MapCase(f, TrimRight(t, s))
  {
    if s != [] {
      assert MapCase(f, s)[1..] == MapCase(f, s[1..]);
      MapTrimRight(t, f, s[1..]);
      var r := TrimRight(t, s);
      if r != [] { assert r[1..] == TrimRight(t, s[1..]); }
    }
  }

  lemma {:induction false} MapCollapsed(t: Tables, f: char -> char, s: string, at: Scan)
    requires SpaceSafe(t, f)
    ensures Collapsed(t, MapCase(f, s), at) == MapCase(f, Collapsed(t, s, at))
  {
    if s != [] {
      assert MapCase(f, s)[1..] == MapCase(f, s[1..]);
      var next := if !t.space(s[0]) then InWord else if at == AtStart then AtStart else AfterWord;
      MapCollapsed(t, f, s[1..], next);
      var r := Collapsed(t, s, at);
      if !t.space(s[0]) {
        var head := if at == AfterWord then [' ', s[0]] else [s[0]];
        MapAppend(f, head, Collapsed(t, s[1..], InWord));
      }
    }
  }

  lemma MapAppend(f: char -> char, a: string, b: string)
    ensures MapCase(f, a + b) == MapCase(f, a) + MapCase(f, b)
  {
  }

  // ---- a list of transforms

  datatype Kind = TrimSpace | ToLower | ToUpper | CollapseSpace

  /** The registry; an unknown name does nothing. */
  function Registered(name: string): Option<Kind> {
    match name
    case "trim" => Some(TrimSpace)
    case "lowercase" => Some(ToLower)
    case "uppercase" => Some(ToUpper)
    case "collapse_whitespace" => Some(CollapseSpace)
    case _ => None
  }

  function Transform(t: Tables, k: Option<Kind>, s: string): string {
    match k
    case Some(TrimSpace) => Trim(t, s)
    case Some(ToLower) => MapCase(t.lower, s)
    case Some(ToUpper) => MapCase(t.upper, s)
    case Some(CollapseSpace) => Collapse(t, s)
    case None => s
  }

  function Applied(t: Tables, s: string, names: seq<string>): string {
    if names == [] then s
    else Transform(t, Registered(names[|names| - 1]), Applied(t, s, names[..|names| - 1]))
  }

  // ---- what the names mean

  /** `r` is `s` without its leading and trailing white space, and nothing else is missing. */
  ghost predicate IsTrimmed(t: Tables, s: string, r: string) {
    exists i, j :: 0 <= i <= j <= |s| && TrimmedTo(t, s, i, j) && r == s[i..j]
  }

  predicate TrimmedTo(t: Tables, s: string, i: nat, j: nat)
    requires i <= j <= |s|
  {
    && (forall k :: 0 <= k < i ==> t.space(s[k])) && (forall k :: j <= k < |s| ==> t.space(s[k]))
    && (i < j ==> !t.space(s[i]) && !t.space(s[j - 1]))
  }

  lemma {:induction false} TrimLeftDrops(t: Tables, s: string) returns (i: nat)
    ensures i <= |s| && TrimLeft(t, s) == s[i..]
    ensures (forall k :: 0 <= k < i ==> t.space(s[k])) && (i < |s| ==> !t.space(s[i]))
  {
    if s != [] && t.space(s[0]) {
      var rest := TrimLeftDrops(t, s[1..]);
      i := rest + 1;
      assert s[1..][rest..] == s[i..];
      forall k | 0 <= k < i ensures t.space(s[k]) {
        if k > 0 { assert s[k] == s[1..][k - 1]; }
      }
    } else {
      i := 0;
    }
  }

  lemma {:induction false} TrimRightDrops(t: Tables, s: string) returns (j: nat)
    ensures j <= |s| && TrimRight(t, s) == s[..j]
    ensures (forall k :: j <= k < |s| ==> t.space(s[k])) && (j > 0 ==> !t.space(s[j - 1]))
  {
    if s == [] {
      j := 0;
    } else {
      var rest := TrimRightDrops(t, s[1..]);
      j := if rest == 0 && t.space(s[0]) then 0 else rest + 1;
      forall k | j <= k < |s| ensures t.space(s[k]) {
        if k > 0 { assert s[k] == s[1..][k - 1]; }
      }
      assert j > 0 ==> s[..j] == [s[0]] + s[1..][..rest];
      assert rest > 0 ==> s[j - 1] == s[1..][rest - 1];
    }
  }

  lemma TrimIsExact(t: Tables, s: string)
    ensures IsTrimmed(t, s, Trim(t, s))
  {
    var i := TrimLeftDrops(t, s);
    var rest := s[i..];
    var n := TrimRightDrops(t, rest);
    var j := i + n;
    assert rest[..n] == s[i..j];
    forall k | j <= k < |s| ensures t.space(s[k]) {
      assert s[k] == rest[k - i];
    }
    assert n > 0 ==> s[j - 1] == rest[n - 1];
    assert TrimmedTo(t, s, i, j);
  }

  lemma {:induction false} TrimRightKeeps(t: Tables, s: string)
    requires s != [] && !t.space(s[|s| - 1])
    ensures TrimRight(t, s) == s
  {
    if |s| > 1 { TrimRightKeeps(t, s[1..]); }
  }

  /** Text that begins and ends with something else than white space is not trimmed. */
  lemma TrimKeeps(t: Tables, s: string)
    requires s != [] && !t.space(s[0]) && !t.space(s[|s| - 1])
    ensures Trim(t, s) == s
  {
    TrimRightKeeps(t, s);
  }

  lemma {:induction false} TrimDropsFront(t: Tables, front: string, s: string)
    requires forall k :: 0 <= k < |front| ==> t.space(front[k])
    ensures Trim(t, front + s) == Trim(t, s)
  {
    if front == [] {
      assert front + s == s;
    } else {
      assert (front + s)[1..] == front[1..] + s;
      TrimDropsFront(t, front[1..], s);
    }
  }

  /** The four configured names, and every other name, on every text. */
  lemma NamedTransforms(t: Tables, s: string, name: string)
    ensures name == "collapse_whitespace" ==> Applied(t, s, [name]) == Join(Words(t, s))
    ensures name == "trim" ==> IsTrimmed(t, s, Applied(t, s, [name]))
    ensures name == "lowercase" || name == "uppercase" ==>
      var r := Applied(t, s, [name]);
      |r| == |s| && forall k :: 0 <= k < |s| ==> r[k] == if name == "lowercase" then t.lower(s[k]) else t.upper(s[k])
    ensures name != "collapse_whitespace" && name != "trim" && name != "lowercase" && name != "uppercase" ==>
      Applied(t, s, [name]) == s
  {
    AppliedOne(t, s, name);
    CollapsedIsJoin(t, s);
    TrimIsExact(t, s);
  }

  lemma AppliedOne(t: Tables, s: string, name: string)
    ensures Applied(t, s, [name]) == Transform(t, Registered(name), s)
  {
    assert [name][..0] == [] && Applied(t, s, []) == s;
  }

  /** The words of a text, without reference to how they are found: none in the empty text, a text
      without white space is one word, and white space separates. */
  lemma {:induction false} WordsSplit(t: Tables, a: string, c: char, b: string)
    requires t.space(c)
    ensures Words(t, "") == []
    ensures b != [] && (forall k :: 0 <= k < |b| ==> !t.space(b[k])) ==> Words(t, b) == [b]
    ensures Words(t, a + [c] + b) == Words(t, a) + Words(t, b)
    decreases |a|
  {
    OneWord(t, b);
    var s := a + [c] + b;
    if a == [] {
      assert s[1..] == b;
    } else if t.space(a[0]) {
      assert s[1..] == a[1..] + [c] + b;
      WordsSplit(t, a[1..], c, b);
    } else {
      var n := WordLength(t, a);
      SameRun(t, a, c, b);
      assert s[..n] == a[..n] && s[n..] == a[n..] + [c] + b;
      WordsSplit(t, a[n..], c, b);
    }
  }

  lemma OneWord(t: Tables, b: string)
    ensures b != [] && (forall k :: 0 <= k < |b| ==> !t.space(b[k])) ==> Words(t, b) == [b]
  {
    if b != [] && forall k :: 0 <= k < |b| ==> !t.space(b[k]) {
      RunStops(t, b, []);
      assert b + [] == b && b[..|b|] == b && b[|b|..] == "";
    }
  }

  lemma {:induction false} SameRun(t: Tables, a: string, c: char, b: string)
    requires t.space(c)
    ensures WordLength(t, a + [c] + b) == WordLength(t, a)
  {
    if a == [] {
      assert (a + [c] + b)[0] == c;
    } else if !t.space(a[0]) {
      assert (a + [c] + b)[1..] == a[1..] + [c] + b;
      SameRun(t, a[1..], c, b);
    }
  }

  /** `name` is the last of the two case transforms in the list. */
  ghost predicate LastCase(names: seq<string>, name: string) {
    exists k :: 0 <= k < |names| && names[k] == name
                && forall j :: k < j < |names| ==> names[j] != "lowercase" && names[j] != "uppercase"
  }

  lemma LastCaseAppend(names: seq<string>, last: string, name: string)
    requires name == "lowercase" || name == "uppercase"
    ensures LastCase(names + [last], name) <==>
      last == name || (last != "lowercase" && last != "uppercase" && LastCase(names, name))
  {
    var all := names + [last];
    if last == name { assert all[|names|] == name; }
    if last != "lowercase" && last != "uppercase" && LastCase(names, name) {
      var k :| 0 <= k < |names| && names[k] == name
               && forall j :: k < j < |names| ==> names[j] != "lowercase" && names[j] != "uppercase";
      assert all[k] == name;
      assert forall j :: k < j < |all| ==> all[j] == if j < |names| then names[j] else last;
    }
    if LastCase(all, name) {
      var k :| 0 <= k < |all| && all[k] == name
               && forall j :: k < j < |all| ==> all[j] != "lowercase" && all[j] != "uppercase";
      if k < |names| {
        assert all[|names|] == last && names[k] == name;
        assert forall j :: k < j < |names| ==> names[j] == all[j];
      }
    }
  }

  /** What a list amounts to, read off its names. */
  lemma {:induction false} SummaryOfNames(names: seq<string>)
    ensures Summarize(names).trims <==> "trim" in names
    ensures Summarize(names).collapses <==> "collapse_whitespace" in names
    ensures Summarize(names).casing == Lower <==> LastCase(names, "lowercase")
    ensures Summarize(names).casing == Upper <==> LastCase(names, "uppercase")
  {
    if names != [] {
      var front, last := names[..|names| - 1], names[|names| - 1];
      assert names == front + [last];
      SummaryOfNames(front);
      LastCaseAppend(front, last, "lowercase");
      LastCaseAppend(front, last, "uppercase");
    }
  }

  datatype Case = Untouched | Lower | Upper

  /** All that a list of transforms amounts to. */
  datatype Summary = Summary(casing: Case, trims: bool, collapses: bool)

  function Extend(m: Summary, k: Option<Kind>): Summary {
    match k
    case Some(TrimSpace) => m.(trims := true)
    case Some(ToLower) => m.(casing := Lower)
    case Some(ToUpper) => m.(casing := Upper)
    case Some(CollapseSpace) => m.(collapses := true)
    case None => m
  }

  function Summarize(names: seq<string>): Summary {
    if names == [] then Summary(Untouched, false, false)
    else Extend(Summarize(names[..|names| - 1]), Registered(names[|names| - 1]))
  }

  function Spaced(t: Tables, s: string, m: Summary): string {
    if m.collapses then Collapse(t, s) else if m.trims then Trim(t, s) else s
  }

  function Cased(t: Tables, s: string, c: Case): string {
    match c case Untouched => s case Lower => MapCase(t.lower, s) case Upper => MapCase(t.upper, s)
  }

  function Reduced(t: Tables, s: string, m: Summary): string {
    Cased(t, Spaced(t, s, m), m.casing)
  }

  lemma {:induction false} TrimmedLawful(t: Tables, s: string)
    requires AllCaseLawful(t, s)
    ensures AllCaseLawful(t, TrimLeft(t, s)) && AllCaseLawful(t, TrimRight(t, s))
  {
    if s != [] { TrimmedLawful(t, s[1..]); }
  }

  lemma {:induction false} CollapsedLawful(t: Tables, s: string, at: Scan)
    requires AllCaseLawful(t, s) && CaseLawful(t, ' ')
    ensures AllCaseLawful(t, Collapsed(t, s, at))
  {
    if s != [] {
      CollapsedLawful(t, s[1..], if at == AtStart then AtStart else AfterWord);
      CollapsedLawful(t, s[1..], InWord);
    }
  }

  lemma SpacedLawful(t: Tables, s: string, m: Summary)
    requires KeepsSpaces(t) && AllCaseLawful(t, s)
    ensures AllCaseLawful(t, Spaced(t, s, m))
  {
    TrimmedLawful(t, s);
    TrimmedLawful(t, TrimLeft(t, s));
    CollapsedLawful(t, s, AtStart);
  }

  /** A later case mapping hides an earlier one. */
  lemma CaseAfterCase(t: Tables, s: string, c: Case)
    requires AllCaseLawful(t, s)
    ensures MapCase(t.lower, Cased(t, s, c)) == MapCase(t.lower, s)
    ensures MapCase(t.upper, Cased(t, s, c)) == MapCase(t.upper, s)
  {
  }

  lemma SpacingUnderCase(t: Tables, s: string, c: Case)
    requires KeepsSpaces(t)
    ensures Trim(t, Cased(t, s, c)) == Cased(t, Trim(t, s), c)
    ensures Collapse(t, Cased(t, s, c)) == Cased(t, Collapse(t, s), c)
  {
    if c != Untouched {
      var f := if c == Lower then t.lower else t.upper;
      MapTrimLeft(t, f, s);
      MapTrimRight(t, f, TrimLeft(t, s));
      MapCollapsed(t, f, s, AtStart);
    }
  }

  lemma TransformReduced(t: Tables, s: string, m: Summary, k: Option<Kind>)
    requires KeepsSpaces(t) && AllCaseLawful(t, s)
    ensures Transform(t, k, Reduced(t, s, m)) == Reduced(t, s, Extend(m, k))
  {
    var spaced := Spaced(t, s, m);
    match k
    case None =>
    case Some(TrimSpace) =>
      SpacingUnderCase(t, spaced, m.casing);
      TrimCollapse(t, s);
      TrimTwice(t, s);
    case Some(CollapseSpace) =>
      SpacingUnderCase(t, spaced, m.casing);
      CollapseTrim(t, s);
      CollapseTwice(t, s);
    case _ =>
      SpacedLawful(t, s, m);
      CaseAfterCase(t, spaced, m.casing);
  }

  /** Every list of transforms reduces to its last case mapping, whether it trims and
      whether it collapses, whatever the order and the repetitions. */
  lemma {:induction false} Reduction(t: Tables, s: string, names: seq<string>)
    requires KeepsSpaces(t) && AllCaseLawful(t, s)
    ensures Applied(t, s, names) == Reduced(t, s, Summarize(names))
  {
    if names != [] {
      Reduction(t, s, names[..|names| - 1]);
      TransformReduced(t, s, Summarize(names[..|names| - 1]), Registered(names[|names| - 1]));
    }
  }

  ghost predicate AlwaysReduces(t: Tables, s: string) {
    forall names :: Applied(t, s, names) == Reduced(t, s, Summarize(names))
  }

  /** A two-element list instance of the reduction, read as a law about case mappings. */
  lemma TwoCases(t: Tables, s: string, first: string, second: string)
    requires AlwaysReduces(t, s)
    requires first == "lowercase" || first == "uppercase"
    requires second == "lowercase" || second == "uppercase"
    ensures var f := if first == "lowercase" then t.lower else t.upper;
            var g := if second == "lowercase" then t.lower else t.upper;
            MapCase(g, MapCase(f, s)) == MapCase(g, s)
  {
    assert [first, second][..1] == [first] && [first][..0] == [];
    assert Applied(t, s, [first]) == Transform(t, Registered(first), Applied(t, s, []));
    assert Summarize([first]) == Extend(Summarize([]), Registered(first));
    assert Applied(t, s, [first, second]) == Reduced(t, s, Summarize([first, second]));
  }

  lemma ReductionNeedsLaws(t: Tables, s: string)
    requires AlwaysReduces(t, s)
    ensures AllCaseLawful(t, s)
  {
    TwoCases(t, s, "lowercase", "lowercase");
    TwoCases(t, s, "uppercase", "lowercase");
    TwoCases(t, s, "uppercase", "uppercase");
    TwoCases(t, s, "lowercase", "uppercase");
    forall i | 0 <= i < |s| ensures CaseLawful(t, s[i]) {
      var ll, lu := MapCase(t.lower, MapCase(t.lower, s)), MapCase(t.lower, MapCase(t.upper, s));
      var uu, ul := MapCase(t.upper, MapCase(t.upper, s)), MapCase(t.upper, MapCase(t.lower, s));
      assert ll[i] == MapCase(t.lower, s)[i] == lu[i];
      assert uu[i] == MapCase(t.upper, s)[i] == ul[i];
    }
  }

  /** The texts on which the reduction holds for every list are exactly those whose
      characters all obey the case laws. */
  lemma ReductionIff(t: Tables, s: string)
    requires KeepsSpaces(t)
    ensures AlwaysReduces(t, s) <==> AllCaseLawful(t, s)
  {
    if AllCaseLawful(t, s) {
      forall names ensures Applied(t, s, names) == Reduced(t, s, Summarize(names)) {
        Reduction(t, s, names);
      }
    }
    if AlwaysReduces(t, s) {
      ReductionNeedsLaws(t, s);
    }
  }

  lemma {:induction false} AppliedAppend(t: Tables, s: string, a: seq<string>, b: seq<string>)
    ensures Applied(t, s, a + b) == Applied(t, Applied(t, s, a), b)
  {
    if b == [] {
      assert a + b == a;
    } else {
      assert (a + b)[..|a + b| - 1] == a + b[..|b| - 1];
      AppliedAppend(t, s, a, b[..|b| - 1]);
    }
  }

  /** Repeating a list, or any prefix of its effects, adds nothing to its summary. */
  lemma {:induction false} SummaryAbsorbs(a: seq<string>, b: seq<string>)
    ensures var mb, m := Summarize(b), Summarize(a + b);
            && m.casing == (if mb.casing == Untouched then Summarize(a).casing else mb.casing)
            && m.trims == (Summarize(a).trims || mb.trims)
            && m.collapses == (Summarize(a).collapses || mb.collapses)
  {
    if b == [] {
      assert a + b == a;
    } else {
      assert (a + b)[..|a + b| - 1] == a + b[..|b| - 1];
      SummaryAbsorbs(a, b[..|b| - 1]);
    }
  }

  /** Normalising text that is already normalised changes nothing. */
  lemma Idempotent(t: Tables, s: string, names: seq<string>)
    requires KeepsSpaces(t) && AllCaseLawful(t, s)
    ensures Applied(t, Applied(t, s, names), names) == Applied(t, s, names)
  {
    AppliedAppend(t, s, names, names);
    SummaryAbsorbs(names, names);
    Reduction(t, s, names);
    Reduction(t, s, names + names);
  }

  // ---- ASCII

  const Ascii := Tables(AsciiLower, AsciiUpper, AsciiSpace)

  function AsciiLower(c: char): char { if 'A' <= c <= 'Z' then (c as int + 32) as char else c }
  function AsciiUpper(c: char): char { if 'a' <= c <= 'z' then (c as int - 32) as char else c }
  predicate AsciiSpace(c: char) { c == ' ' || '\t' <= c <= '\r' }

  /** The ASCII tables by enumeration. */
  lemma AsciiIs(c: char)
    ensures AsciiSpace(c) <==> c in " \t\n\r\U{0b}\U{0c}"
    ensures c in "ABCDEFGHIJKLMNOPQRSTUVWXYZ" || AsciiLower(c) == c
    ensures AsciiLower('A') == 'a' && AsciiLower('Z') == 'z' && AsciiUpper('a') == 'A' && AsciiUpper('z') == 'Z'
  {
    var upper := "ABCDEFGHIJKLMNOPQRSTUVWXYZ";
    if 'A' <= c <= 'Z' { assert upper[c as int - 'A' as int] == c; }
  }

  lemma AsciiLaws(s: string)
    ensures KeepsSpaces(Ascii) && AllCaseLawful(Ascii, s)
  {
  }

  // ---- the loops

  /** `collapseWhitespace`: write one space per run, then trim what was written. */
  method CollapseWhitespace(t: Tables, s: string) returns (out: string)
    requires t.space(' ')
    ensures out == Collapse(t, s)
  {
    var b := "";
    var prevSpace := false;
    var i := 0;
    while i < |s|
      invariant 0 <= i <= |s|
      invariant b + Squeezed(t, s[i..], prevSpace) == Squeezed(t, s, false)
    {
      assert s[i..][1..] == s[i + 1..];
      Regroup(b, if !t.space(s[i]) then [s[i]] else if prevSpace then "" else " ", Squeezed(t, s[i + 1..], t.space(s[i])));
      if t.space(s[i]) {
        if !prevSpace {
          b := b + " ";
        }
        prevSpace := true;
      } else {
        b := b + [s[i]];
        prevSpace := false;
      }
      i := i + 1;
    }
    assert b + "" == b;
    SqueezedStart(t, s, false);
    out := Trim(t, b);
  }

  /** What the builder still receives from `s`. */
  function Squeezed(t: Tables, s: string, prevSpace: bool): string {
    if s == [] then ""
    else if t.space(s[0]) then (if prevSpace then "" else " ") + Squeezed(t, s[1..], true)
    else [s[0]] + Squeezed(t, s[1..], false)
  }

  lemma {:induction false} SqueezedTail(t: Tables, s: string)
    requires t.space(' ')
    ensures TrimRight(t, Squeezed(t, s, false)) == Collapsed(t, s, InWord)
    ensures TrimRight(t, " " + Squeezed(t, s, true)) == Collapsed(t, s, AfterWord)
  {
    if s != [] {
      SqueezedTail(t, s[1..]);
      if t.space(s[0]) {
        assert "" + Squeezed(t, s[1..], true) == Squeezed(t, s[1..], true);
      } else {
        var later := Squeezed(t, s[1..], false);
        assert (" " + ([s[0]] + later))[1..] == [s[0]] + later;
        assert ([s[0]] + later)[1..] == later;
        Regroup([' '], [s[0]], Collapsed(t, s[1..], InWord));
      }
    } else {
      assert " " + "" == " ";
    }
  }

  lemma {:induction false} SqueezedStart(t: Tables, s: string, prevSpace: bool)
    requires t.space(' ')
    ensures Trim(t, Squeezed(t, s, prevSpace)) == Collapse(t, s)
  {
    if s != [] && t.space(s[0]) {
      SqueezedStart(t, s[1..], true);
      var later := Squeezed(t, s[1..], true);
      assert (" " + later)[1..] == later;
      assert "" + later == later;
    } else if s != [] {
      SqueezedTail(t, s[1..]);
      var later := Squeezed(t, s[1..], false);
      assert ([s[0]] + later)[1..] == later;
    }
  }

  /** `Apply`: run the named transforms in order. */
  method Apply(t: Tables, value: string, transforms: seq<string>) returns (out: string)
    requires t.space(' ')
    ensures out == Applied(t, value, transforms)
  {
    out := value;
    var i := 0;
    while i < |transforms|
      invariant 0 <= i <= |transforms|
      invariant out == Applied(t, value, transforms[..i])
    {
      assert transforms[..i + 1][..i] == transforms[..i];
      match Registered(transforms[i]) {
        case Some(TrimSpace) => out := Trim(t, out);
        case Some(ToLower) => out := MapCase(t.lower, out);
        case Some(ToUpper) => out := MapCase(t.upper, out);
        case Some(CollapseSpace) => out := CollapseWhitespace(t, out);
        case None =>
      }
      i := i + 1;
    }
    assert transforms[..|transforms|] == transforms;
  }
}
