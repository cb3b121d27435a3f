/** What each setting of a policy file does to the policy, and that a policy printed as a block of
    such lines is read back. */
module PolicyText {
  import opened Outcomes
  import opened Normalizer
  import opened Policy
  import opened PolicyParser
  import opened Strings

  // ---- one setting

  /** The mode a word stands for. */
  predicate Names(word: string, m: Mode) {
    match m
    case NoMode => word == ""
    case Strict => word == "strict"
    case CacheMode => word == "cache"
    case LogOnly => word == "log_only"
    case Off => word == "off"
    case UnknownMode(name) => name == word && word !in ["", "strict", "cache", "log_only", "off"]
  }

  predicate NamesStrategy(word: string, s: Strategy) {
    match s
    case NoStrategy => word == ""
    case CachedResponse => word == "cached_response"
    case SynthesizedAck => word == "synthesized_ack"
  }

  /** The duration a word stands for, in nanoseconds: so many days or weeks, or what the standard
      library makes of it. */
  predicate Lasts(lex: Lex, word: string, d: int) {
    && word != ""
    && var n := lex.atoi(word[..|word| - 1]);
       if word[|word| - 1] == 'd' then n.Some? && d == n.value * 86_400_000_000_000
       else if word[|word| - 1] == 'w' then n.Some? && d == n.value * 604_800_000_000_000
       else lex.duration(word) == Some(d)
  }

  /** `q` is `p` with the setting `key` changed to `val`, and every other setting as it was. */
  ghost predicate Sets(lex: Lex, key: string, val: string, p: ToolPolicy, q: ToolPolicy) {
    var word := Trim(lex.t, val);
    if key == "mode" then Names(word, q.mode) && q == p.(mode := q.mode)
    else if key == "ttl" then Lasts(lex, word, q.ttl) && q == p.(ttl := q.ttl)
    else if key == "semantic_threshold" then lex.float(word) == Some(q.threshold) && q == p.(threshold := q.threshold)
    else if key == "require_human_confirm_on_replay" then q == p.(confirmReplay := word == "true")
    else if key == "redact_request_body" then q == p.(redactRequest := word == "true")
    else SetsText(lex, key, val, p, q)
  }

  ghost predicate SetsText(lex: Lex, key: string, val: string, p: ToolPolicy, q: ToolPolicy) {
    var word := Trim(lex.t, val);
    if key == "fingerprint_fields" then q == p.(fingerprintFields := InlineList(lex, val))
    else if key == "allowed_callers" then q == p.(allowedCallers := InlineList(lex, val))
    else if key == "replay_strategy" then NamesStrategy(word, q.strategy) && q == p.(strategy := q.strategy)
    else key == "synthesized_response" && q == p.(template := TrimAllQuotes(word))
  }

  /** The line is no comment and not blank, and `stack` is what it leaves open. */
  predicate Reads(lex: Lex, st: State, raw: string, stack: seq<Frame>, key: string, val: string) {
    var line := StripComment(raw);
    var trim := Trim(lex.t, line);
    && trim != "" && stack == Popped(st.stack, Indent(line)) && stack != []
    && SplitKV(lex, trim) == Some((key, val)) && trim != "normalize:" && trim != "rate_limit:"
    && !(Indent(line) == 0 && (trim == "defaults:" || trim == "tools:"))
  }

  lemma TextSets(lex: Lex, p: ToolPolicy, key: string, val: string)
    ensures AssignedText(lex, p, key, val).Ok? ==> SetsText(lex, key, val, p, AssignedText(lex, p, key, val).value)
  {
  }

  lemma AssignedSets(lex: Lex, p: ToolPolicy, key: string, val: string)
    ensures Assigned(lex, p, key, val).Ok? ==> Sets(lex, key, val, p, Assigned(lex, p, key, val).value)
  {
    TextSets(lex, p, key, val);
  }

  lemma TextSettable(lex: Lex, p: ToolPolicy, key: string, val: string, q: ToolPolicy)
    requires SetsText(lex, key, val, p, q)
    ensures AssignedText(lex, p, key, val).Ok?
  {
  }

  lemma Settable(lex: Lex, p: ToolPolicy, key: string, val: string, q: ToolPolicy)
    requires Sets(lex, key, val, p, q)
    ensures Assigned(lex, p, key, val).Ok?
  {
    if SetsText(lex, key, val, p, q) { TextSettable(lex, p, key, val, q); }
  }

  /** A line `key: value` directly inside a tool, or inside the defaults, is accepted if and only if
      the key is known and the value can be read, and then it changes exactly the setting of that
      name in the policy of that block. */
  lemma SettingLine(lex: Lex, st: State, raw: string, stack: seq<Frame>, key: string, val: string, target: Target)
    requires Reads(lex, st, raw, stack, key, val)
    requires stack[|stack| - 1].block == match target case ToDefaults => Defaults case ToTool(name) => Tool(name)
    ensures Step(lex, st, raw).Ok? <==> exists q :: Sets(lex, key, val, At(st.cfg, target), q)
    ensures Step(lex, st, raw).Ok? ==>
      && Step(lex, st, raw).value.stack == stack
      && Sets(lex, key, val, At(st.cfg, target), At(Step(lex, st, raw).value.cfg, target))
  {
    var p := At(st.cfg, target);
    AssignedSets(lex, p, key, val);
    forall q | Sets(lex, key, val, p, q) ensures Assigned(lex, p, key, val).Ok? {
      Settable(lex, p, key, val, q);
    }
  }

  /** Inside `normalize:` a line sets the transforms of one field, and always is accepted; inside
      `rate_limit:` it sets one of the two limits. */
  lemma NestedLine(lex: Lex, st: State, raw: string, stack: seq<Frame>, key: string, val: string, tool: string)
    requires Reads(lex, st, raw, stack, key, val)
    ensures stack[|stack| - 1].block == Normalize(tool) ==>
      && Step(lex, st, raw).Ok?
      && var p := At(st.cfg, ToTool(tool));
         At(Step(lex, st, raw).value.cfg, ToTool(tool)) == p.(normalize := p.normalize[key := InlineList(lex, val)])
    ensures stack[|stack| - 1].block == RateLimit(tool) && Step(lex, st, raw).Ok? ==>
      var p, q := At(st.cfg, ToTool(tool)), At(Step(lex, st, raw).value.cfg, ToTool(tool));
      || (key == "rps" && lex.float(Trim(lex.t, val)) == Some(q.rps) && q == p.(rps := q.rps))
      || (key == "burst" && lex.atoi(Trim(lex.t, val)) == Some(q.burst) && q == p.(burst := q.burst))
  {
  }

  /** Nothing on the line but white space and a comment: it changes nothing. */
  lemma BlankLine(lex: Lex, st: State, blank: string, comment: string)
    requires (forall k :: 0 <= k < |blank| ==> lex.t.space(blank[k])) && '#' !in blank
    requires comment == "" || comment[0] == '#'
    ensures Step(lex, st, blank + comment) == Ok(st)
  {
    CommentIsIgnored(blank, comment);
    TrimDropsFront(lex.t, blank, "");
    assert blank + "" == blank;
  }

  lemma CommentIsIgnored(text: string, comment: string)
    requires '#' !in text && (comment == "" || comment[0] == '#')
    ensures StripComment(text + comment) == text
  {
    if comment == "" {
      assert text + comment == text;
      NoneFound(text, '#');
      assert text[..|text|] == text;
    } else {
      assert text + comment == text + (['#'] + comment[1..]);
      FirstFound(text, '#', comment[1..]);
      assert (text + comment)[..|text|] == text;
    }
  }

  /** The two sections open at the left margin and nowhere else, and close everything before them. */
  lemma Sections(lex: Lex, st: State)
    requires lex.t.space(' ') && !lex.t.space(':') && (forall c :: 'a' <= c <= 'z' ==> !lex.t.space(c)) && Valid(st)
    ensures Step(lex, st, "defaults:") == Ok(st.(stack := [Frame(0, Defaults)]))
    ensures Step(lex, st, "tools:") == Ok(st.(stack := [Frame(0, Tools)]))
  {
    PlainHeader(lex, st, "defaults:");
    PlainHeader(lex, st, "tools:");
    HeaderOpens(lex);
    SectionOpens(lex, st, "defaults:", Defaults);
    SectionOpens(lex, st, "tools:", Tools);
  }

  lemma HeaderOpens(lex: Lex)
    ensures Read(lex, [], 0, "defaults:") == Opens(Defaults) && Read(lex, [], 0, "tools:") == Opens(Tools)
  {
    assert |"defaults:"| != |"tools:"|;
  }

  lemma SectionOpens(lex: Lex, st: State, raw: string, block: Block)
    requires StripComment(raw) == raw && Trim(lex.t, raw) == raw && Indent(raw) == 0 && Popped(st.stack, 0) == []
    requires raw != "" && Read(lex, [], 0, raw) == Opens(block) && !block.Tool?
    ensures Step(lex, st, raw) == Ok(st.(stack := [Frame(0, block)]))
  {
    assert [] + [Frame(0, block)] == [Frame(0, block)];
  }

  lemma PlainHeader(lex: Lex, st: State, raw: string)
    requires raw == "defaults:" || raw == "tools:"
    requires lex.t.space(' ') && !lex.t.space(':') && (forall c :: 'a' <= c <= 'z' ==> !lex.t.space(c)) && Valid(st)
    ensures StripComment(raw) == raw && Trim(lex.t, raw) == raw && Indent(raw) == 0 && Popped(st.stack, 0) == []
  {
    NoneFound(raw, '#');
    assert raw[..|raw|] == raw;
    TrimKeeps(lex.t, raw);
    AllPopped(st.stack);
  }

  lemma {:induction false} AllPopped(stack: seq<Frame>)
    ensures Popped(stack, 0) == []
    decreases |stack|
  {
    if stack != [] { AllPopped(stack[..|stack| - 1]); }
  }

  /** Away from the margin, or inside a section, those words are nothing special. */
  lemma SectionsOnlyAtMargin(lex: Lex, stack: seq<Frame>, indent: nat, trim: string)
    ensures indent > 0 && Read(lex, stack, indent, trim).Opens? ==> !Read(lex, stack, indent, trim).block.Defaults?
    ensures indent > 0 ==> Read(lex, stack, indent, trim) != Opens(Tools)
    ensures stack == [] && (indent > 0 || (trim != "defaults:" && trim != "tools:")) ==>
      Read(lex, stack, indent, trim) == Wrong(Unexpected(trim))
  {
  }

  /** One pair of quotes around a word is dropped, of either sort, and only one; a word that is not in
      brackets is a list of one. */
  lemma QuotesDrop(lex: Lex, v: string)
    requires Plain(lex, v) && v[0] != '[' && v[0] != '"' && v[0] != '\''
    requires !lex.t.space('"') && !lex.t.space('\'')
    ensures InlineList(lex, v) == [v]
    ensures TrimQuotes("\"" + v + "\"") == v && TrimQuotes("'" + v + "'") == v && TrimQuotes("\"" + v + "'") == "\"" + v + "'"
    ensures InlineList(lex, "\"" + v + "\"") == [v] && InlineList(lex, "'" + v + "'") == [v]
    ensures InlineList(lex, "") == []
  {
    TrimKeeps(lex.t, v);
    Wrapped("\"", v, "\"");
    Wrapped("'", v, "'");
    Wrapped("\"", v, "'");
    TrimKeeps(lex.t, "\"" + v + "\"");
    TrimKeeps(lex.t, "'" + v + "'");
  }

  lemma Wrapped(a: string, v: string, b: string)
    requires |a| == |b| == 1
    ensures var s := a + v + b; |s| == |v| + 2 && s[0] == a[0] && s[|s| - 1] == b[0] && s[1..|s| - 1] == v
  {
  }

  /** A template loses every quote at its ends. */
  lemma TemplateQuotes(v: string, q: string)
    requires v != [] && v[0] != '"' && v[0] != '\'' && v[|v| - 1] != '"' && v[|v| - 1] != '\''
    requires q == "\"" || q == "'"
    ensures TrimAllQuotes(v) == v && TrimAllQuotes(q + v) == v && TrimAllQuotes(v + q) == v && TrimAllQuotes(q + v + q) == v
  {
    assert (q + v)[1..] == v && (v + q)[..|v|] == v && (q + v + q)[1..] == v + q;
    assert (v + q)[0] == v[0] && (v + q)[|v|] == q[0];
  }

  // ---- printing a policy

  /** The printers of the standard library. */
  datatype Show = Show(float: real -> string, whole: int -> string, duration: int -> string)

  /** Text that survives on a line: no comment sign, no white space at its ends. */
  predicate Plain(lex: Lex, v: string) {
    v != [] && '#' !in v && !lex.t.space(v[0]) && !lex.t.space(v[|v| - 1])
  }

  predicate PlainKey(lex: Lex, k: string) {
    Plain(lex, k) && ':' !in k && k != "normalize" && k != "rate_limit"
  }

  /** Printed numbers are plain and read back. */
  ghost predicate Faithful(lex: Lex, show: Show) {
    && lex.t.space(' ') && !lex.t.space(':') && !lex.t.space('[') && !lex.t.space(']')
    && (forall x :: Plain(lex, show.float(x)) && lex.float(show.float(x)) == Some(x))
    && (forall x :: Plain(lex, show.whole(x)) && lex.atoi(show.whole(x)) == Some(x))
    && (forall d :: Plain(lex, show.duration(d)) && Lasts(lex, show.duration(d), d))
  }

  /** An element of an inline list. */
  predicate Element(lex: Lex, v: string) {
    Plain(lex, v) && ',' !in v && !Quoted(v, '"') && !Quoted(v, '\'')
  }

  predicate Elements(lex: Lex, vs: seq<string>) {
    forall k {:trigger Element(lex, vs[k])} :: 0 <= k < |vs| ==> Element(lex, vs[k])
  }

  function ListText(vs: seq<string>): string {
    "[" + (if vs == [] then "" else Joined(vs, ',')) + "]"
  }

  /** A line of a block. */
  function LineOf(indent: nat, key: string, val: string): string {
    seq(indent, _ => ' ') + (key + ": " + val)
  }

  // ---- a printed line reads back

  lemma {:induction false} IndentOf(n: nat, rest: string)
    requires rest != [] && rest[0] != ' '
    ensures Indent(seq(n, _ => ' ') + rest) == n
  {
    var s := seq(n, _ => ' ') + rest;
    if n > 0 {
      assert s[1..] == seq(n - 1, _ => ' ') + rest;
      IndentOf(n - 1, rest);
    } else {
      assert s == rest;
    }
  }

  lemma {:induction false} NoneFound(s: string, c: char)
    requires c !in s
    ensures Index(s, c) == |s|
  {
    if s != [] { NoneFound(s[1..], c); }
  }

  lemma FirstFound(a: string, c: char, b: string)
    requires c !in a
    ensures Index(a + ([c] + b), c) == |a|
  {
    var s := a + ([c] + b);
    assert s[|a|] == c && forall k :: 0 <= k < |a| ==> s[k] == a[k];
  }

  lemma SplitPrinted(lex: Lex, key: string, val: string)
    requires lex.t.space(' ') && PlainKey(lex, key) && Plain(lex, val)
    ensures SplitKV(lex, key + ": " + val) == Some((key, val))
  {
    var s := key + ": " + val;
    assert s == key + ([':'] + (" " + val));
    FirstFound(key, ':', " " + val);
    assert s[..|key|] == key && s[|key| + 1..] == " " + val;
    TrimKeeps(lex.t, key);
    TrimDropsFront(lex.t, " ", val);
    TrimKeeps(lex.t, val);
  }

  /** Blanks around the colon do not matter, and only the first colon separates. */
  lemma SplitTrims(lex: Lex, key: string, a: string, b: string, val: string)
    requires Plain(lex, key) && ':' !in key && Plain(lex, val) && lex.t.space(' ')
    requires (a == "" || a == " ") && (b == "" || b == " ")
    ensures SplitKV(lex, (key + a) + ([':'] + (b + val))) == Some((key, val))
  {
    FirstFound(key + a, ':', b + val);
    var s := (key + a) + ([':'] + (b + val));
    assert s[..|key + a|] == key + a && s[|key + a| + 1..] == b + val;
    TrimKeeps(lex.t, key);
    TrimKeeps(lex.t, val);
    TrimDropsFront(lex.t, b, val);
    TrimDropsBack(lex.t, key, a);
  }

  lemma TrimDropsBack(t: Tables, s: string, a: string)
    requires s != [] && !t.space(s[0]) && !t.space(s[|s| - 1]) && (a == "" || a == " ") && t.space(' ')
    ensures Trim(t, s + a) == s
  {
    if a == "" {
      assert s + a == s;
      TrimKeeps(t, s);
    } else {
      assert (s + a)[0] == s[0];
      TrimRightDropsBlank(t, s);
    }
  }

  lemma {:induction false} TrimRightDropsBlank(t: Tables, s: string)
    requires s != [] && !t.space(s[|s| - 1]) && t.space(' ')
    ensures TrimRight(t, s + " ") == s
  {
    assert (s + " ")[1..] == s[1..] + " " && (s + " ")[0] == s[0];
    if |s| > 1 {
      TrimRightDropsBlank(t, s[1..]);
      assert s == [s[0]] + s[1..];
    } else {
      assert s[1..] + " " == " " && " "[1..] == "" && TrimRight(t, "") == "";
      assert TrimRight(t, " ") == "" && s == [s[0]] + "";
    }
  }

  /** What the parser sees of a printed line. */
  lemma LinePrinted(lex: Lex, indent: nat, key: string, val: string)
    requires lex.t.space(' ') && PlainKey(lex, key) && Plain(lex, val)
    ensures var raw := LineOf(indent, key, val);
      StripComment(raw) == raw && Indent(raw) == indent && Trim(lex.t, raw) == key + ": " + val
  {
    var front, text := seq(indent, _ => ' '), key + ": " + val;
    assert '#' !in front + text;
    NoneFound(front + text, '#');
    assert (front + text)[..|front + text|] == front + text;
    assert text[0] == key[0] && text[|text| - 1] == val[|val| - 1];
    IndentOf(indent, text);
    TrimDropsFront(lex.t, front, text);
    TrimKeeps(lex.t, text);
  }

  lemma NotAHeader(key: string, val: string)
    requires key != "normalize" && key != "rate_limit" && val != []
    ensures key + ": " + val != "normalize:" && key + ": " + val != "rate_limit:"
  {
    var s := key + ": " + val;
    assert s[|key|] == ':' && s[|key| + 1] == ' ';
    assert ' ' in s;
  }

  /** A printed line reads as its key and value, and leaves open what was open around it. */
  lemma PrintedReads(lex: Lex, st: State, indent: nat, key: string, val: string)
    requires lex.t.space(' ') && PlainKey(lex, key) && Plain(lex, val) && indent > 0 && Popped(st.stack, indent) != []
    ensures Reads(lex, st, LineOf(indent, key, val), Popped(st.stack, indent), key, val)
  {
    LinePrinted(lex, indent, key, val);
    SplitPrinted(lex, key, val);
    NotAHeader(key, val);
    assert (key + ": " + val)[|key|] == ':';
  }

  // ---- lists read back

  lemma ElementKept(lex: Lex, v: string)
    requires Element(lex, v)
    ensures TrimQuotes(Trim(lex.t, v)) == v && v != ""
  {
    TrimKeeps(lex.t, v);
  }

  lemma NonEmptyAppend(lex: Lex, front: seq<string>, v: string)
    requires Element(lex, v) && NonEmpty(lex, front) == front
    ensures NonEmpty(lex, front + [v]) == front + [v]
  {
    ElementKept(lex, v);
    assert (front + [v])[..|front|] == front && (front + [v])[|front|] == v;
  }

  lemma FrontElements(lex: Lex, front: seq<string>, v: string)
    requires Elements(lex, front + [v])
    ensures Elements(lex, front) && Element(lex, v)
  {
    var all := front + [v];
    assert Element(lex, all[|front|]);
    forall k | 0 <= k < |front| ensures Element(lex, front[k]) {
      assert Element(lex, all[k]);
    }
  }

  lemma {:induction false} PlainParts(lex: Lex, parts: seq<string>)
    requires Elements(lex, parts)
    ensures NonEmpty(lex, parts) == parts
  {
    if parts != [] {
      var front, last := parts[..|parts| - 1], parts[|parts| - 1];
      assert parts == front + [last];
      FrontElements(lex, front, last);
      PlainParts(lex, front);
      NonEmptyAppend(lex, front, last);
    }
  }

  lemma {:induction false} JoinedEnds(vs: seq<string>)
    requires vs != [] && forall k :: 0 <= k < |vs| ==> vs[k] != []
    ensures var s := Joined(vs, ',');
      s != [] && s[0] == vs[0][0] && s[|s| - 1] == vs[|vs| - 1][|vs[|vs| - 1]| - 1]
    decreases |vs|
  {
    if |vs| > 1 {
      JoinedEnds(vs[1..]);
      var rest := Joined(vs[1..], ',');
      var s := Joined(vs, ',');
      assert s == vs[0] + ([','] + rest);
      assert s[|s| - 1] == rest[|rest| - 1];
    }
  }

  lemma Bracketed(inner: string)
    ensures var s := "[" + inner + "]"; s[1..|s| - 1] == inner && s[0] == '[' && s[|s| - 1] == ']' && |s| >= 2
  {
  }

  /** Printing a list of plain elements and reading it gives the list. */
  lemma ListReadsBack(lex: Lex, vs: seq<string>)
    requires Elements(lex, vs) && !lex.t.space('[') && !lex.t.space(']')
    ensures InlineList(lex, ListText(vs)) == vs
  {
    var inner := if vs == [] then "" else Joined(vs, ',');
    Bracketed(inner);
    TrimKeeps(lex.t, ListText(vs));
    if vs != [] {
      assert forall k :: 0 <= k < |vs| ==> Element(lex, vs[k]);
      JoinedEnds(vs);
      TrimKeeps(lex.t, inner);
      PiecesOfJoined(vs, ',');
      PlainParts(lex, vs);
    }
  }

  lemma {:induction false} NoComment(vs: seq<string>)
    requires vs != [] && forall k :: 0 <= k < |vs| ==> '#' !in vs[k]
    ensures '#' !in Joined(vs, ',')
    decreases |vs|
  {
    if |vs| > 1 { NoComment(vs[1..]); }
  }

  lemma ListIsPlain(lex: Lex, vs: seq<string>)
    requires Elements(lex, vs) && !lex.t.space('[') && !lex.t.space(']')
    ensures Plain(lex, ListText(vs))
  {
    Bracketed(if vs == [] then "" else Joined(vs, ','));
    if vs != [] {
      assert forall k :: 0 <= k < |vs| ==> Element(lex, vs[k]);
      NoComment(vs);
    }
  }

  // ---- a policy read back

  function ModeText(m: Mode): string {
    match m
    case NoMode => ""
    case Strict => "strict"
    case CacheMode => "cache"
    case LogOnly => "log_only"
    case Off => "off"
    case UnknownMode(name) => name
  }

  /** A policy whose text survives on lines and in lists. */
  predicate Printable(lex: Lex, p: ToolPolicy) {
    && (p.mode.UnknownMode? ==> Plain(lex, p.mode.name) && Names(p.mode.name, p.mode))
    && Elements(lex, p.fingerprintFields) && Elements(lex, p.allowedCallers)
    && (p.template != "" ==> Plain(lex, p.template) && TrimAllQuotes(p.template) == p.template)
    && (forall f :: f in p.normalize ==> PlainKey(lex, f) && Elements(lex, p.normalize[f]))
  }

  function YesNo(b: bool): string { if b then "true" else "false" }

  /** The scalar settings, in the order in which they are printed; unset ones are left out. */
  function ModeSetting(p: ToolPolicy): seq<(string, string)> { if p.mode == NoMode then [] else [("mode", ModeText(p.mode))] }
  function TtlSetting(show: Show, p: ToolPolicy): seq<(string, string)> { [("ttl", show.duration(p.ttl))] }
  function ThresholdSetting(show: Show, p: ToolPolicy): seq<(string, string)> {
    [("semantic_threshold", show.float(p.threshold))]
  }
  function ConfirmSetting(p: ToolPolicy): seq<(string, string)> {
    [("require_human_confirm_on_replay", YesNo(p.confirmReplay))]
  }
  function RedactSetting(p: ToolPolicy): seq<(string, string)> { [("redact_request_body", YesNo(p.redactRequest))] }
  function FieldsSetting(p: ToolPolicy): seq<(string, string)> { [("fingerprint_fields", ListText(p.fingerprintFields))] }
  function CallersSetting(p: ToolPolicy): seq<(string, string)> { [("allowed_callers", ListText(p.allowedCallers))] }
  function StrategySetting(p: ToolPolicy): seq<(string, string)> {
    match p.strategy
    case NoStrategy => []
    case CachedResponse => [("replay_strategy", "cached_response")]
    case SynthesizedAck => [("replay_strategy", "synthesized_ack")]
  }
  function TemplateSetting(p: ToolPolicy): seq<(string, string)> {
    if p.template == "" then [] else [("synthesized_response", p.template)]
  }

  function FirstSettings(show: Show, p: ToolPolicy): seq<(string, string)> {
    ModeSetting(p) + TtlSetting(show, p) + ThresholdSetting(show, p) + ConfirmSetting(p) + RedactSetting(p)
  }

  function SecondSettings(p: ToolPolicy): seq<(string, string)> {
    FieldsSetting(p) + CallersSetting(p) + StrategySetting(p) + TemplateSetting(p)
  }

  function Settings(show: Show, p: ToolPolicy): seq<(string, string)> {
    FirstSettings(show, p) + SecondSettings(p)
  }

  predicate PlainSettings(lex: Lex, ss: seq<(string, string)>) {
    forall k :: 0 <= k < |ss| ==> PlainKey(lex, ss[k].0) && Plain(lex, ss[k].1)
  }

  /** The settings applied to a policy, one after the other. */
  function Built(lex: Lex, p: ToolPolicy, ss: seq<(string, string)>): Parsed<ToolPolicy> {
    if ss == [] then Ok(p)
    else
      match Built(lex, p, ss[..|ss| - 1])
      case Err(problem) => Err(problem)
      case Ok(q) => Assigned(lex, q, ss[|ss| - 1].0, ss[|ss| - 1].1)
  }

  lemma {:induction false} BuiltAppend(lex: Lex, p: ToolPolicy, a: seq<(string, string)>, b: seq<(string, string)>, q: ToolPolicy)
    requires Built(lex, p, a) == Ok(q)
    ensures Built(lex, p, a + b) == Built(lex, q, b)
    decreases |b|
  {
    if b == [] {
      assert a + b == a;
    } else {
      assert (a + b)[..|a + b| - 1] == a + b[..|b| - 1];
      BuiltAppend(lex, p, a, b[..|b| - 1], q);
    }
  }

  lemma BuiltOne(lex: Lex, p: ToolPolicy, key: string, val: string)
    ensures Built(lex, p, [(key, val)]) == Assigned(lex, p, key, val)
  {
    assert [(key, val)][..0] == [];
  }

  lemma TrimWord(lex: Lex, v: string)
    requires Plain(lex, v)
    ensures Trim(lex.t, v) == v
  {
    TrimKeeps(lex.t, v);
  }

  /** The words the parser knows: lower-case letters and underscores, and no white space among them. */
  predicate Word(s: string) {
    s != [] && forall k :: 0 <= k < |s| ==> 'a' <= s[k] <= 'z' || s[k] == '_'
  }

  ghost predicate Sensible(lex: Lex) {
    (forall c :: 'a' <= c <= 'z' ==> !lex.t.space(c)) && !lex.t.space('_') && !lex.t.space('[') && !lex.t.space(']')
  }

  lemma WordIsPlain(lex: Lex, w: string)
    requires Sensible(lex) && Word(w)
    ensures Plain(lex, w) && Trim(lex.t, w) == w && ':' !in w
  {
    TrimWord(lex, w);
  }

  /** One setting with a known key and a plain value. */
  lemma OneSetting(lex: Lex, q: ToolPolicy, key: string, val: string)
    requires Sensible(lex) && Word(key) && Plain(lex, val) && key != "normalize" && key != "rate_limit"
    ensures PlainSettings(lex, [(key, val)]) && Trim(lex.t, val) == val
    ensures Built(lex, q, [(key, val)]) == Assigned(lex, q, key, val)
  {
    WordIsPlain(lex, key);
    TrimWord(lex, val);
    BuiltOne(lex, q, key, val);
  }

  lemma ModeWord(lex: Lex, p: ToolPolicy)
    requires Sensible(lex) && Printable(lex, p) && p.mode != NoMode
    ensures Plain(lex, ModeText(p.mode)) && ModeOf(ModeText(p.mode)) == p.mode
  {
    if !p.mode.UnknownMode? {
      assert Word("strict") && Word("cache") && Word("log_only") && Word("off");
      WordIsPlain(lex, ModeText(p.mode));
    }
  }

  lemma ModeBuilt(lex: Lex, p: ToolPolicy, q: ToolPolicy)
    requires Sensible(lex) && Printable(lex, p) && q.mode == NoMode
    ensures Built(lex, q, ModeSetting(p)) == Ok(q.(mode := p.mode)) && PlainSettings(lex, ModeSetting(p))
  {
    if p.mode != NoMode {
      ModeWord(lex, p);
      OneSetting(lex, q, "mode", ModeText(p.mode));
    }
  }

  lemma TtlBuilt(lex: Lex, show: Show, p: ToolPolicy, q: ToolPolicy)
    requires Faithful(lex, show) && Sensible(lex)
    ensures Built(lex, q, TtlSetting(show, p)) == Ok(q.(ttl := p.ttl)) && PlainSettings(lex, TtlSetting(show, p))
  {
    OneSetting(lex, q, "ttl", show.duration(p.ttl));
    assert Lasts(lex, show.duration(p.ttl), p.ttl);
  }

  lemma ThresholdBuilt(lex: Lex, show: Show, p: ToolPolicy, q: ToolPolicy)
    requires Faithful(lex, show) && Sensible(lex)
    ensures Built(lex, q, ThresholdSetting(show, p)) == Ok(q.(threshold := p.threshold))
    ensures PlainSettings(lex, ThresholdSetting(show, p))
  {
    assert Word("semantic_threshold");
    OneSetting(lex, q, "semantic_threshold", show.float(p.threshold));
  }

  lemma FlagWord(lex: Lex, b: bool)
    requires Sensible(lex)
    ensures Plain(lex, YesNo(b)) && (YesNo(b) == "true" <==> b)
  {
    assert Word("true") && Word("false") && |"true"| != |"false"|;
    WordIsPlain(lex, YesNo(b));
  }

  lemma ConfirmBuilt(lex: Lex, p: ToolPolicy, q: ToolPolicy)
    requires Sensible(lex)
    ensures Built(lex, q, ConfirmSetting(p)) == Ok(q.(confirmReplay := p.confirmReplay)) && PlainSettings(lex, ConfirmSetting(p))
  {
    FlagWord(lex, p.confirmReplay);
    assert Word("require_human_confirm_on_replay");
    OneSetting(lex, q, "require_human_confirm_on_replay", YesNo(p.confirmReplay));
  }

  lemma RedactBuilt(lex: Lex, p: ToolPolicy, q: ToolPolicy)
    requires Sensible(lex)
    ensures Built(lex, q, RedactSetting(p)) == Ok(q.(redactRequest := p.redactRequest)) && PlainSettings(lex, RedactSetting(p))
  {
    FlagWord(lex, p.redactRequest);
    assert Word("redact_request_body");
    OneSetting(lex, q, "redact_request_body", YesNo(p.redactRequest));
  }

  lemma ListSetting(lex: Lex, q: ToolPolicy, key: string, vs: seq<string>)
    requires Sensible(lex) && Elements(lex, vs) && Word(key) && key != "normalize" && key != "rate_limit"
    ensures PlainSettings(lex, [(key, ListText(vs))]) && InlineList(lex, ListText(vs)) == vs
    ensures Built(lex, q, [(key, ListText(vs))]) == Assigned(lex, q, key, ListText(vs))
  {
    ListReadsBack(lex, vs);
    ListIsPlain(lex, vs);
    OneSetting(lex, q, key, ListText(vs));
  }

  lemma AssignLists(lex: Lex, q: ToolPolicy, text: string)
    ensures Assigned(lex, q, "fingerprint_fields", text) == Ok(q.(fingerprintFields := InlineList(lex, text)))
    ensures Assigned(lex, q, "allowed_callers", text) == Ok(q.(allowedCallers := InlineList(lex, text)))
    ensures Word("fingerprint_fields") && Word("allowed_callers")
  {
  }

  lemma FieldsBuilt(lex: Lex, p: ToolPolicy, q: ToolPolicy)
    requires Sensible(lex) && Elements(lex, p.fingerprintFields)
    ensures Built(lex, q, FieldsSetting(p)) == Ok(q.(fingerprintFields := p.fingerprintFields))
    ensures PlainSettings(lex, FieldsSetting(p))
  {
    AssignLists(lex, q, ListText(p.fingerprintFields));
    ListSetting(lex, q, "fingerprint_fields", p.fingerprintFields);
  }

  lemma CallersBuilt(lex: Lex, p: ToolPolicy, q: ToolPolicy)
    requires Sensible(lex) && Elements(lex, p.allowedCallers)
    ensures Built(lex, q, CallersSetting(p)) == Ok(q.(allowedCallers := p.allowedCallers))
    ensures PlainSettings(lex, CallersSetting(p))
  {
    AssignLists(lex, q, ListText(p.allowedCallers));
    ListSetting(lex, q, "allowed_callers", p.allowedCallers);
  }

  lemma AssignStrategies(lex: Lex, q: ToolPolicy)
    requires Trim(lex.t, "cached_response") == "cached_response" && Trim(lex.t, "synthesized_ack") == "synthesized_ack"
    ensures Assigned(lex, q, "replay_strategy", "cached_response") == Ok(q.(strategy := CachedResponse))
    ensures Assigned(lex, q, "replay_strategy", "synthesized_ack") == Ok(q.(strategy := SynthesizedAck))
  {
    assert |"cached_response"| == |"synthesized_ack"| && "cached_response"[0] != "synthesized_ack"[0];
  }

  lemma StrategyWords()
    ensures Word("replay_strategy") && Word("cached_response") && Word("synthesized_ack")
  {
  }

  lemma StrategyBuilt(lex: Lex, p: ToolPolicy, q: ToolPolicy)
    requires Sensible(lex) && q.strategy == NoStrategy
    ensures Built(lex, q, StrategySetting(p)) == Ok(q.(strategy := p.strategy)) && PlainSettings(lex, StrategySetting(p))
  {
    StrategyWords();
    WordIsPlain(lex, "cached_response");
    WordIsPlain(lex, "synthesized_ack");
    AssignStrategies(lex, q);
    match p.strategy
    case NoStrategy =>
    case CachedResponse => OneSetting(lex, q, "replay_strategy", "cached_response");
    case SynthesizedAck => OneSetting(lex, q, "replay_strategy", "synthesized_ack");
  }

  lemma TemplateBuilt(lex: Lex, p: ToolPolicy, q: ToolPolicy)
    requires Sensible(lex) && Printable(lex, p) && q.template == ""
    ensures Built(lex, q, TemplateSetting(p)) == Ok(q.(template := p.template)) && PlainSettings(lex, TemplateSetting(p))
  {
    assert Word("synthesized_response");
    if p.template != "" { OneSetting(lex, q, "synthesized_response", p.template); }
  }

  lemma PlainAppend(lex: Lex, a: seq<(string, string)>, b: seq<(string, string)>)
    requires PlainSettings(lex, a) && PlainSettings(lex, b)
    ensures PlainSettings(lex, a + b)
  {
  }

  /** Everything but the two nested blocks. */
  function Flat(p: ToolPolicy): ToolPolicy { p.(normalize := map[], rps := 0.0, burst := 0) }

  /** One more group of settings. */
  lemma Then(lex: Lex, p: ToolPolicy, a: seq<(string, string)>, q: ToolPolicy, b: seq<(string, string)>, r: ToolPolicy)
    requires Built(lex, p, a) == Ok(q) && Built(lex, q, b) == Ok(r) && PlainSettings(lex, a) && PlainSettings(lex, b)
    ensures Built(lex, p, a + b) == Ok(r) && PlainSettings(lex, a + b)
  {
    BuiltAppend(lex, p, a, b, q);
    PlainAppend(lex, a, b);
  }

  lemma FirstHalf(lex: Lex, show: Show, p: ToolPolicy, q: ToolPolicy)
    requires Faithful(lex, show) && Sensible(lex) && Printable(lex, p)
    requires q == EMPTY.(mode := p.mode, ttl := p.ttl, threshold := p.threshold,
                         confirmReplay := p.confirmReplay, redactRequest := p.redactRequest)
    ensures Built(lex, EMPTY, FirstSettings(show, p)) == Ok(q) && PlainSettings(lex, FirstSettings(show, p))
  {
    var q1 := EMPTY.(mode := p.mode);
    var q2 := q1.(ttl := p.ttl);
    var q3 := q2.(threshold := p.threshold);
    var q4 := q3.(confirmReplay := p.confirmReplay);
    ModeBuilt(lex, p, EMPTY);
    TtlBuilt(lex, show, p, q1);
    ThresholdBuilt(lex, show, p, q2);
    ConfirmBuilt(lex, p, q3);
    RedactBuilt(lex, p, q4);
    var a, b, c := ModeSetting(p), TtlSetting(show, p), ThresholdSetting(show, p);
    Then(lex, EMPTY, a, q1, b, q2);
    Then(lex, EMPTY, a + b, q2, c, q3);
    Then(lex, EMPTY, a + b + c, q3, ConfirmSetting(p), q4);
    Then(lex, EMPTY, a + b + c + ConfirmSetting(p), q4, RedactSetting(p), q);
  }

  lemma SecondHalf(lex: Lex, p: ToolPolicy, q: ToolPolicy)
    requires Sensible(lex) && Printable(lex, p) && q.strategy == NoStrategy && q.template == ""
    ensures Built(lex, q, SecondSettings(p)) == Ok(q.(fingerprintFields := p.fingerprintFields,
              allowedCallers := p.allowedCallers, strategy := p.strategy, template := p.template))
    ensures PlainSettings(lex, SecondSettings(p))
  {
    var q1 := q.(fingerprintFields := p.fingerprintFields);
    var q2 := q1.(allowedCallers := p.allowedCallers);
    var q3 := q2.(strategy := p.strategy);
    FieldsBuilt(lex, p, q);
    CallersBuilt(lex, p, q1);
    StrategyBuilt(lex, p, q2);
    TemplateBuilt(lex, p, q3);
    var a, b := FieldsSetting(p), CallersSetting(p);
    Then(lex, q, a, q1, b, q2);
    Then(lex, q, a + b, q2, StrategySetting(p), q3);
    Then(lex, q, a + b + StrategySetting(p), q3, TemplateSetting(p), q3.(template := p.template));
  }

  lemma SettingsBuilt(lex: Lex, show: Show, p: ToolPolicy)
    requires Faithful(lex, show) && Sensible(lex) && Printable(lex, p)
    ensures Built(lex, EMPTY, Settings(show, p)) == Ok(Flat(p)) && PlainSettings(lex, Settings(show, p))
  {
    var q := EMPTY.(mode := p.mode, ttl := p.ttl, threshold := p.threshold,
                    confirmReplay := p.confirmReplay, redactRequest := p.redactRequest);
    FirstHalf(lex, show, p, q);
    SecondHalf(lex, p, q);
    Then(lex, EMPTY, FirstSettings(show, p), q, SecondSettings(p), Flat(p));
  }

  // ---- the lines of a tool

  /** The stack inside tool `name`. */
  function InTool(name: string): seq<Frame> { [Frame(0, Tools), Frame(2, Tool(name))] }

  /** Inside tool `name`, possibly in one of its nested blocks. */
  predicate Within(stack: seq<Frame>, name: string) {
    stack == InTool(name) || stack == InTool(name) + [Frame(4, Normalize(name))]
    || stack == InTool(name) + [Frame(4, RateLimit(name))]
  }

  lemma PopsToTool(stack: seq<Frame>, name: string)
    requires Within(stack, name)
    ensures Popped(stack, 4) == InTool(name)
    ensures Popped(InTool(name) + [Frame(4, Normalize(name))], 6) == InTool(name) + [Frame(4, Normalize(name))]
    ensures Popped(InTool(name) + [Frame(4, RateLimit(name))], 6) == InTool(name) + [Frame(4, RateLimit(name))]
    ensures Popped(stack, 2) == [Frame(0, Tools)]
  {
    var base := InTool(name);
    assert base[..1] == [Frame(0, Tools)];
    if stack != base { assert stack[..2] == base; }
  }

  lemma ScalarLine(lex: Lex, st: State, name: string, key: string, val: string, q: ToolPolicy)
    requires lex.t.space(' ') && Within(st.stack, name) && PlainKey(lex, key) && Plain(lex, val)
    requires Assigned(lex, At(st.cfg, ToTool(name)), key, val) == Ok(q)
    ensures Step(lex, st, LineOf(4, key, val)) == Ok(State(Put(st.cfg, ToTool(name), q), InTool(name)))
  {
    PopsToTool(st.stack, name);
    PrintedReads(lex, st, 4, key, val);
  }

  lemma {:induction false} StepsAppend(lex: Lex, st: State, a: seq<string>, mid: State, b: seq<string>)
    requires Steps(lex, st, a) == Ok(mid)
    ensures Steps(lex, st, a + b) == Steps(lex, mid, b)
    decreases |b|
  {
    if b == [] {
      assert a + b == a;
    } else {
      assert (a + b)[..|a + b| - 1] == a + b[..|b| - 1];
      StepsAppend(lex, st, a, mid, b[..|b| - 1]);
    }
  }

  lemma StepsOne(lex: Lex, st: State, raw: string)
    ensures Steps(lex, st, [raw]) == Step(lex, st, raw)
  {
    assert [raw][..0] == [];
  }

  lemma Both(lex: Lex, st: State, a: seq<string>, mid: State, b: seq<string>, end: State)
    requires Steps(lex, st, a) == Ok(mid) && Steps(lex, mid, b) == Ok(end)
    ensures Steps(lex, st, a + b) == Ok(end)
  {
    StepsAppend(lex, st, a, mid, b);
  }

  lemma OneThen(lex: Lex, st: State, raw: string, mid: State, rest: seq<string>, end: State)
    requires Step(lex, st, raw) == Ok(mid) && Steps(lex, mid, rest) == Ok(end)
    ensures Steps(lex, st, [raw] + rest) == Ok(end)
  {
    StepsOne(lex, st, raw);
    Both(lex, st, [raw], mid, rest, end);
  }

  lemma AndOne(lex: Lex, st: State, lines: seq<string>, mid: State, raw: string, end: State)
    requires Steps(lex, st, lines) == Ok(mid) && Step(lex, mid, raw) == Ok(end)
    ensures Steps(lex, st, lines + [raw]) == Ok(end)
  {
    StepsOne(lex, mid, raw);
    Both(lex, st, lines, mid, [raw], end);
  }

  /** A state inside `tools:` in which the tool has policy `q`. */
  function Having(st: State, name: string, q: ToolPolicy, stack: seq<Frame>): State {
    State(Put(st.cfg, ToTool(name), q), stack)
  }

  lemma HavingTwice(st: State, name: string, q: ToolPolicy, stack: seq<Frame>, r: ToolPolicy, stack': seq<Frame>)
    ensures Having(Having(st, name, q, stack), name, r, stack') == Having(st, name, r, stack')
    ensures At(Having(st, name, q, stack).cfg, ToTool(name)) == q
  {
    assert st.cfg.tools[name := q][name := r] == st.cfg.tools[name := r];
  }

  function SettingLines(ss: seq<(string, string)>): seq<string> {
    if ss == [] then [] else SettingLines(ss[..|ss| - 1]) + [LineOf(4, ss[|ss| - 1].0, ss[|ss| - 1].1)]
  }

  /** The printed settings, read one by one, build the policy. */
  lemma {:induction false} SettingsRead(lex: Lex, st: State, name: string, p: ToolPolicy, ss: seq<(string, string)>, q: ToolPolicy)
    requires lex.t.space(' ') && PlainSettings(lex, ss) && Built(lex, p, ss) == Ok(q)
    ensures Steps(lex, Having(st, name, p, InTool(name)), SettingLines(ss)) == Ok(Having(st, name, q, InTool(name)))
    decreases |ss|
  {
    if ss != [] {
      var front, last := ss[..|ss| - 1], ss[|ss| - 1];
      var mid := Built(lex, p, front).value;
      SettingsRead(lex, st, name, p, front, mid);
      OneSettingRead(lex, st, name, mid, last.0, last.1, q);
      AndOne(lex, Having(st, name, p, InTool(name)), SettingLines(front), Having(st, name, mid, InTool(name)),
        LineOf(4, last.0, last.1), Having(st, name, q, InTool(name)));
    }
  }

  lemma OneSettingRead(lex: Lex, st: State, name: string, p: ToolPolicy, key: string, val: string, q: ToolPolicy)
    requires lex.t.space(' ') && PlainKey(lex, key) && Plain(lex, val) && Assigned(lex, p, key, val) == Ok(q)
    ensures Step(lex, Having(st, name, p, InTool(name)), LineOf(4, key, val)) == Ok(Having(st, name, q, InTool(name)))
  {
    HavingTwice(st, name, p, InTool(name), q, InTool(name));
    ScalarLine(lex, Having(st, name, p, InTool(name)), name, key, val, q);
  }

  // ---- headers

  function HeaderLine(indent: nat, word: string): string { seq(indent, _ => ' ') + (word + ":") }

  lemma HeaderPrinted(lex: Lex, indent: nat, word: string)
    requires lex.t.space(' ') && !lex.t.space(':') && Plain(lex, word)
    ensures var raw := HeaderLine(indent, word);
      StripComment(raw) == raw && Indent(raw) == indent && Trim(lex.t, raw) == word + ":"
  {
    var front, text := seq(indent, _ => ' '), word + ":";
    assert '#' !in front + text;
    NoneFound(front + text, '#');
    assert (front + text)[..|front + text|] == front + text;
    assert text[0] == word[0] && text[|text| - 1] == ':';
    IndentOf(indent, text);
    TrimDropsFront(lex.t, front, text);
    TrimKeeps(lex.t, text);
  }

  /** The header of a tool starts its policy afresh. */
  lemma ToolHeader(lex: Lex, st: State, name: string)
    requires lex.t.space(' ') && !lex.t.space(':') && Plain(lex, name) && Popped(st.stack, 2) == [Frame(0, Tools)]
    ensures Step(lex, st, HeaderLine(2, name)) == Ok(Having(st, name, EMPTY, InTool(name)))
  {
    HeaderPrinted(lex, 2, name);
    var trim := name + ":";
    assert trim[|trim| - 1] == ':' && trim[..|trim| - 1] == name;
    assert [Frame(0, Tools)] + [Frame(2, Tool(name))] == InTool(name);
  }

  lemma NestedHeader(lex: Lex, st: State, name: string, word: string, block: Block)
    requires lex.t.space(' ') && !lex.t.space(':') && Plain(lex, word) && Within(st.stack, name)
    requires Setting(lex, ToTool(name), name, word + ":") == Opens(block) && !block.Tool?
    ensures Step(lex, st, HeaderLine(4, word)) == Ok(st.(stack := InTool(name) + [Frame(4, block)]))
  {
    HeaderPrinted(lex, 4, word);
    PopsToTool(st.stack, name);
  }

  lemma HeaderWords(lex: Lex, name: string)
    requires Sensible(lex)
    ensures Plain(lex, "normalize") && Setting(lex, ToTool(name), name, "normalize" + ":") == Opens(Normalize(name))
    ensures Plain(lex, "rate_limit") && Setting(lex, ToTool(name), name, "rate_limit" + ":") == Opens(RateLimit(name))
  {
    assert Word("normalize") && Word("rate_limit");
    WordIsPlain(lex, "normalize");
    WordIsPlain(lex, "rate_limit");
    assert "normalize" + ":" == "normalize:" && "rate_limit" + ":" == "rate_limit:" && |"normalize:"| != |"rate_limit:"|;
  }

  // ---- the nested blocks

  function InNormalize(name: string): seq<Frame> { InTool(name) + [Frame(4, Normalize(name))] }
  function InRate(name: string): seq<Frame> { InTool(name) + [Frame(4, RateLimit(name))] }

  function TransformLines(norm: map<string, seq<string>>, order: seq<string>): seq<string>
    requires forall k :: 0 <= k < |order| ==> order[k] in norm
  {
    if order == [] then []
    else
      var f := order[|order| - 1];
      TransformLines(norm, order[..|order| - 1]) + [LineOf(6, f, ListText(norm[f]))]
  }

  function First(norm: map<string, seq<string>>, order: seq<string>): map<string, seq<string>>
    requires forall k :: 0 <= k < |order| ==> order[k] in norm
  {
    if order == [] then map[]
    else
      var f := order[|order| - 1];
      First(norm, order[..|order| - 1])[f := norm[f]]
  }

  /** A line read inside `normalize:`. */
  lemma FieldLine(lex: Lex, st: State, raw: string, stack: seq<Frame>, f: string, val: string, name: string)
    requires Reads(lex, st, raw, stack, f, val) && stack[|stack| - 1].block == Normalize(name)
    ensures var p := At(st.cfg, ToTool(name));
      Step(lex, st, raw) == Ok(Having(st, name, p.(normalize := p.normalize[f := InlineList(lex, val)]), stack))
  {
  }

  lemma TransformLine(lex: Lex, st: State, name: string, p: ToolPolicy, f: string, vs: seq<string>)
    requires lex.t.space(' ') && PlainKey(lex, f) && Plain(lex, ListText(vs)) && InlineList(lex, ListText(vs)) == vs
    ensures Step(lex, Having(st, name, p, InNormalize(name)), LineOf(6, f, ListText(vs)))
         == Ok(Having(st, name, p.(normalize := p.normalize[f := vs]), InNormalize(name)))
  {
    var now := Having(st, name, p, InNormalize(name));
    PopsToTool(InNormalize(name), name);
    PrintedReads(lex, now, 6, f, ListText(vs));
    FieldLine(lex, now, LineOf(6, f, ListText(vs)), InNormalize(name), f, ListText(vs), name);
    HavingTwice(st, name, p, InNormalize(name), p.(normalize := p.normalize[f := vs]), InNormalize(name));
  }

  /** Fields and transform lists that survive on lines. */
  predicate PlainTransforms(lex: Lex, norm: map<string, seq<string>>) {
    forall f :: f in norm ==> PlainKey(lex, f) && Elements(lex, norm[f])
  }

  lemma {:induction false} TransformsRead(lex: Lex, st: State, name: string, p: ToolPolicy, norm: map<string, seq<string>>, order: seq<string>)
    requires lex.t.space(' ') && Sensible(lex) && PlainTransforms(lex, norm)
    requires forall k :: 0 <= k < |order| ==> order[k] in norm
    ensures Steps(lex, Having(st, name, p.(normalize := map[]), InNormalize(name)), TransformLines(norm, order))
         == Ok(Having(st, name, p.(normalize := First(norm, order)), InNormalize(name)))
    decreases |order|
  {
    if order != [] {
      var front, f := order[..|order| - 1], order[|order| - 1];
      TransformsRead(lex, st, name, p, norm, front);
      ListReadsBack(lex, norm[f]);
      ListIsPlain(lex, norm[f]);
      TransformLine(lex, st, name, p.(normalize := First(norm, front)), f, norm[f]);
      AndOne(lex, Having(st, name, p.(normalize := map[]), InNormalize(name)), TransformLines(norm, front),
        Having(st, name, p.(normalize := First(norm, front)), InNormalize(name)), LineOf(6, f, ListText(norm[f])),
        Having(st, name, p.(normalize := First(norm, order)), InNormalize(name)));
    }
  }

  lemma {:induction false} FirstIsAll(norm: map<string, seq<string>>, order: seq<string>)
    requires forall k :: 0 <= k < |order| ==> order[k] in norm
    ensures First(norm, order) == map f | f in norm && f in order :: norm[f]
  {
    if order != [] {
      FirstIsAll(norm, order[..|order| - 1]);
      assert order == order[..|order| - 1] + [order[|order| - 1]];
    }
  }

  lemma RateLine(lex: Lex, st: State, name: string, p: ToolPolicy, key: string, val: string, q: ToolPolicy)
    requires lex.t.space(' ') && PlainKey(lex, key) && Plain(lex, val) && Rated(lex, p, key, val) == Ok(q)
    ensures Step(lex, Having(st, name, p, InRate(name)), LineOf(6, key, val)) == Ok(Having(st, name, q, InRate(name)))
  {
    var now := Having(st, name, p, InRate(name));
    PopsToTool(InRate(name), name);
    PrintedReads(lex, now, 6, key, val);
    HavingTwice(st, name, p, InRate(name), q, InRate(name));
  }

  function RateLines(show: Show, x: real, n: int): seq<string> {
    [LineOf(6, "rps", show.float(x))] + [LineOf(6, "burst", show.whole(n))]
  }

  lemma RateWords(lex: Lex, show: Show, p: ToolPolicy, x: real, n: int)
    requires Faithful(lex, show) && Sensible(lex)
    ensures PlainKey(lex, "rps") && Rated(lex, p, "rps", show.float(x)) == Ok(p.(rps := x))
    ensures PlainKey(lex, "burst") && Rated(lex, p, "burst", show.whole(n)) == Ok(p.(burst := n))
  {
    assert Word("rps") && Word("burst");
    WordIsPlain(lex, "rps");
    WordIsPlain(lex, "burst");
    TrimWord(lex, show.float(x));
    TrimWord(lex, show.whole(n));
  }

  lemma RateRead(lex: Lex, show: Show, st: State, name: string, p: ToolPolicy, x: real, n: int)
    requires Faithful(lex, show) && Sensible(lex)
    ensures Steps(lex, Having(st, name, p, InRate(name)), RateLines(show, x, n))
         == Ok(Having(st, name, p.(rps := x, burst := n), InRate(name)))
  {
    RateWords(lex, show, p, x, n);
    RateWords(lex, show, p.(rps := x), x, n);
    RateLine(lex, st, name, p, "rps", show.float(x), p.(rps := x));
    RateLine(lex, st, name, p.(rps := x), "burst", show.whole(n), p.(rps := x, burst := n));
    StepsOne(lex, Having(st, name, p.(rps := x), InRate(name)), LineOf(6, "burst", show.whole(n)));
    OneThen(lex, Having(st, name, p, InRate(name)), LineOf(6, "rps", show.float(x)),
      Having(st, name, p.(rps := x), InRate(name)), [LineOf(6, "burst", show.whole(n))],
      Having(st, name, p.(rps := x, burst := n), InRate(name)));
  }

  // ---- the whole block

  function Head(name: string, ss: seq<(string, string)>): seq<string> { [HeaderLine(2, name)] + SettingLines(ss) }

  function Transforms(norm: map<string, seq<string>>, order: seq<string>): seq<string>
    requires forall k :: 0 <= k < |order| ==> order[k] in norm
  {
    [HeaderLine(4, "normalize")] + TransformLines(norm, order)
  }

  function Limits(show: Show, x: real, n: int): seq<string> { [HeaderLine(4, "rate_limit")] + RateLines(show, x, n) }

  /** A tool as lines of a policy file; `order` lists its normalised fields. */
  function Block(show: Show, name: string, p: ToolPolicy, order: seq<string>): seq<string>
    requires forall k :: 0 <= k < |order| ==> order[k] in p.normalize
  {
    Head(name, Settings(show, p)) + Transforms(p.normalize, order) + Limits(show, p.rps, p.burst)
  }

  predicate Enumerates(order: seq<string>, norm: map<string, seq<string>>) {
    (forall k :: 0 <= k < |order| ==> order[k] in norm) && forall f :: f in norm ==> f in order
  }

  lemma HeadRead(lex: Lex, st: State, name: string, ss: seq<(string, string)>, q: ToolPolicy)
    requires lex.t.space(' ') && !lex.t.space(':') && Plain(lex, name) && Popped(st.stack, 2) == [Frame(0, Tools)]
    requires PlainSettings(lex, ss) && Built(lex, EMPTY, ss) == Ok(q)
    ensures Steps(lex, st, Head(name, ss)) == Ok(Having(st, name, q, InTool(name)))
  {
    ToolHeader(lex, st, name);
    SettingsRead(lex, st, name, EMPTY, ss, q);
    OneThen(lex, st, HeaderLine(2, name), Having(st, name, EMPTY, InTool(name)), SettingLines(ss), Having(st, name, q, InTool(name)));
  }

  lemma TransformsBlockRead(lex: Lex, st: State, name: string, p: ToolPolicy, norm: map<string, seq<string>>, order: seq<string>)
    requires lex.t.space(' ') && !lex.t.space(':') && Sensible(lex) && PlainTransforms(lex, norm) && Enumerates(order, norm)
    requires p.normalize == map[]
    ensures Steps(lex, Having(st, name, p, InTool(name)), Transforms(norm, order))
         == Ok(Having(st, name, p.(normalize := norm), InNormalize(name)))
  {
    var now := Having(st, name, p, InTool(name));
    HeaderWords(lex, name);
    NestedHeader(lex, now, name, "normalize", Normalize(name));
    TransformsRead(lex, st, name, p, norm, order);
    FirstIsAll(norm, order);
    assert First(norm, order) == norm;
    OneThen(lex, now, HeaderLine(4, "normalize"), Having(st, name, p, InNormalize(name)), TransformLines(norm, order),
      Having(st, name, p.(normalize := norm), InNormalize(name)));
  }

  lemma LimitsRead(lex: Lex, show: Show, st: State, name: string, p: ToolPolicy, x: real, n: int)
    requires Faithful(lex, show) && Sensible(lex)
    ensures Steps(lex, Having(st, name, p, InNormalize(name)), Limits(show, x, n))
         == Ok(Having(st, name, p.(rps := x, burst := n), InRate(name)))
  {
    var now := Having(st, name, p, InNormalize(name));
    HeaderWords(lex, name);
    NestedHeader(lex, now, name, "rate_limit", RateLimit(name));
    RateRead(lex, show, st, name, p, x, n);
    OneThen(lex, now, HeaderLine(4, "rate_limit"), Having(st, name, p, InRate(name)), RateLines(show, x, n),
      Having(st, name, p.(rps := x, burst := n), InRate(name)));
  }

  lemma PrintableTransforms(lex: Lex, p: ToolPolicy)
    requires Printable(lex, p)
    ensures PlainTransforms(lex, p.normalize)
  {
  }

  lemma BlockRead(lex: Lex, show: Show, st: State, name: string, ss: seq<(string, string)>, p: ToolPolicy, order: seq<string>)
    requires Faithful(lex, show) && Sensible(lex) && Plain(lex, name) && Popped(st.stack, 2) == [Frame(0, Tools)]
    requires PlainSettings(lex, ss) && Built(lex, EMPTY, ss) == Ok(Flat(p))
    requires PlainTransforms(lex, p.normalize) && Enumerates(order, p.normalize)
    ensures Steps(lex, st, Head(name, ss) + Transforms(p.normalize, order) + Limits(show, p.rps, p.burst))
         == Ok(Having(st, name, p, InRate(name)))
  {
    var q := Flat(p).(normalize := p.normalize);
    HeadRead(lex, st, name, ss, Flat(p));
    TransformsBlockRead(lex, st, name, Flat(p), p.normalize, order);
    Both(lex, st, Head(name, ss), Having(st, name, Flat(p), InTool(name)), Transforms(p.normalize, order),
      Having(st, name, q, InNormalize(name)));
    LimitsRead(lex, show, st, name, q, p.rps, p.burst);
    Both(lex, st, Head(name, ss) + Transforms(p.normalize, order), Having(st, name, q, InNormalize(name)),
      Limits(show, p.rps, p.burst), Having(st, name, p, InRate(name)));
  }

  /** Printing a policy as the block of a tool and parsing the lines, anywhere inside `tools:`, gives
      that tool exactly that policy and changes nothing else. */
  lemma PolicyReadsBack(lex: Lex, show: Show, st: State, name: string, p: ToolPolicy, order: seq<string>)
    requires Faithful(lex, show) && Sensible(lex) && Printable(lex, p) && Plain(lex, name)
    requires Enumerates(order, p.normalize) && Popped(st.stack, 2) == [Frame(0, Tools)]
    ensures Steps(lex, st, Block(show, name, p, order)).Ok?
    ensures var end := Steps(lex, st, Block(show, name, p, order)).value;
      end.cfg == st.cfg.(tools := st.cfg.tools[name := p]) && Popped(end.stack, 2) == [Frame(0, Tools)]
  {
    SettingsBuilt(lex, show, p);
    PrintableTransforms(lex, p);
    BlockRead(lex, show, st, name, Settings(show, p), p, order);
    PopsToTool(InRate(name), name);
  }
}
