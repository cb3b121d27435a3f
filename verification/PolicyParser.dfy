/** The policy file parser (internal/policy/loader.go): a loop over lines with a stack of
    open blocks. */
module PolicyParser {
  import opened Outcomes
  import opened Normalizer
  import opened Policy
  import opened Strings

  /** White space, and the number parsers of the standard library. */
  datatype Lex = Lex(
    t: Tables, float: string -> Option<real>, atoi: string -> Option<int>, duration: string -> Option<int>)

  datatype Problem = Unexpected(text: string) | NotKeyValue(text: string) | UnknownKey(key: string) | BadValue(key: string)
  datatype Parsed<+T> = Ok(value: T) | Err(problem: Problem)

  // ---- lexing

  function StripComment(s: string): string { s[..Index(s, '#')] }

  function Indent(s: string): nat {
    if s == [] || s[0] != ' ' then 0 else 1 + Indent(s[1..])
  }

  method LeadingSpaces(s: string) returns (n: nat)
    ensures n == Indent(s)
  {
    n := 0;
    while n < |s| && s[n] == ' '
      invariant n <= |s| && Indent(s) == n + Indent(s[n..])
    {
      n := n + 1;
    }
  }

  function SplitKV(lex: Lex, s: string): Option<(string, string)> {
    var i := Index(s, ':');
    if i == |s| then None else Some((Trim(lex.t, s[..i]), Trim(lex.t, s[i + 1..])))
  }

  predicate Quoted(s: string, q: char) { |s| >= 2 && s[0] == q && s[|s| - 1] == q }

  function TrimQuotes(s: string): string {
    if Quoted(s, '"') || Quoted(s, '\'') then s[1..|s| - 1] else s
  }

  /** Strips any run of quotes on either side. */
  function TrimAllQuotes(s: string): string {
    if s != [] && (s[0] == '"' || s[0] == '\'') then TrimAllQuotes(s[1..])
    else if s != [] && (s[|s| - 1] == '"' || s[|s| - 1] == '\'') then TrimAllQuotes(s[..|s| - 1])
    else s
  }

  function NonEmpty(lex: Lex, parts: seq<string>): seq<string> {
    if parts == [] then []
    else
      var p := TrimQuotes(Trim(lex.t, parts[|parts| - 1]));
      NonEmpty(lex, parts[..|parts| - 1]) + if p == "" then [] else [p]
  }

  function InlineList(lex: Lex, val: string): seq<string> {
    var s := Trim(lex.t, val);
    if s == "" then []
    else if |s| < 2 || s[0] != '[' || s[|s| - 1] != ']' then [TrimQuotes(s)]
    else
      var inner := Trim(lex.t, s[1..|s| - 1]);
      if inner == "" then [] else NonEmpty(lex, Pieces(inner, ','))
  }

  method ParseInlineList(lex: Lex, val: string) returns (out: seq<string>)
    ensures out == InlineList(lex, val)
  {
    var s := Trim(lex.t, val);
    if s == "" { return []; }
    if |s| < 2 || s[0] != '[' || s[|s| - 1] != ']' { return [TrimQuotes(s)]; }
    var inner := Trim(lex.t, s[1..|s| - 1]);
    if inner == "" { return []; }
    var parts := Pieces(inner, ',');
    out := [];
    var i := 0;
    while i < |parts|
      invariant 0 <= i <= |parts| && out == NonEmpty(lex, parts[..i])
    {
      var p := TrimQuotes(Trim(lex.t, parts[i]));
      assert parts[..i + 1][..i] == parts[..i];
      if p != "" { out := out + [p]; }
      i := i + 1;
    }
    assert parts[..|parts|] == parts;
  }

  const DAY := 24 * 3600 * 1_000_000_000

  function Duration(lex: Lex, s: string): Option<int> {
    if s == "" then None
    else
      var last := s[|s| - 1];
      if last == 'd' || last == 'w' then
        match lex.atoi(s[..|s| - 1])
        case Some(n) => Some(n * if last == 'w' then 7 * DAY else DAY)
        case None => None
      else lex.duration(s)
  }

  function ModeOf(s: string): Mode {
    if s == "" then NoMode else if s == "strict" then Strict else if s == "cache" then CacheMode
    else if s == "log_only" then LogOnly else if s == "off" then Off else UnknownMode(s)
  }

  // ---- blocks and edits

  datatype Block = Defaults | Tools | Tool(name: string) | Normalize(tool: string) | RateLimit(tool: string)
  datatype Frame = Frame(indent: nat, block: Block)
  datatype State = State(cfg: Config, stack: seq<Frame>)

  /** Which policy a line writes to. */
  datatype Target = ToDefaults | ToTool(name: string)

  datatype Edit =
    | Reset
    | Assign(key: string, val: string)
    | SetTransforms(field: string, val: string)
    | SetRate(field: string, val: string)

  /** A missing tool reads as the zero policy. */
  function At(cfg: Config, target: Target): ToolPolicy {
    match target
    case ToDefaults => cfg.defaults
    case ToTool(name) => if name in cfg.tools then cfg.tools[name] else EMPTY
  }

  function Put(cfg: Config, target: Target, p: ToolPolicy): Config {
    match target
    case ToDefaults => cfg.(defaults := p)
    case ToTool(name) => cfg.(tools := cfg.tools[name := p])
  }

  function Assigned(lex: Lex, p: ToolPolicy, key: string, val: string): Parsed<ToolPolicy> {
    var v := Trim(lex.t, val);
    if key == "mode" then Ok(p.(mode := ModeOf(v)))
    else if key == "ttl" then
      match Duration(lex, v) case Some(d) => Ok(p.(ttl := d)) case None => Err(BadValue(key))
    else if key == "semantic_threshold" then
      match lex.float(v) case Some(f) => Ok(p.(threshold := f)) case None => Err(BadValue(key))
    else if key == "require_human_confirm_on_replay" then Ok(p.(confirmReplay := v == "true"))
    else if key == "redact_request_body" then Ok(p.(redactRequest := v == "true"))
    else AssignedText(lex, p, key, val)
  }

  function AssignedText(lex: Lex, p: ToolPolicy, key: string, val: string): Parsed<ToolPolicy> {
    var v := Trim(lex.t, val);
    if key == "fingerprint_fields" then Ok(p.(fingerprintFields := InlineList(lex, val)))
    else if key == "allowed_callers" then Ok(p.(allowedCallers := InlineList(lex, val)))
    else if key == "replay_strategy" then
      if v == "cached_response" then Ok(p.(strategy := CachedResponse))
      else if v == "synthesized_ack" then Ok(p.(strategy := SynthesizedAck))
      else if v == "" then Ok(p.(strategy := NoStrategy))
      else Err(BadValue(key))
    else if key == "synthesized_response" then Ok(p.(template := TrimAllQuotes(v)))
    else Err(UnknownKey(key))
  }

  function Rated(lex: Lex, p: ToolPolicy, key: string, val: string): Parsed<ToolPolicy> {
    var v := Trim(lex.t, val);
    if key == "rps" then
      match lex.float(v) case Some(f) => Ok(p.(rps := f)) case None => Err(BadValue(key))
    else if key == "burst" then
      match lex.atoi(v) case Some(n) => Ok(p.(burst := n)) case None => Err(BadValue(key))
    else Err(UnknownKey(key))
  }

  function Edited(lex: Lex, p: ToolPolicy, e: Edit): Parsed<ToolPolicy> {
    match e
    case Reset => Ok(EMPTY)
    case Assign(key, val) => Assigned(lex, p, key, val)
    case SetTransforms(field, val) => Ok(p.(normalize := p.normalize[field := InlineList(lex, val)]))
    case SetRate(field, val) => Rated(lex, p, field, val)
  }

  // ---- one line

  function Popped(stack: seq<Frame>, indent: nat): seq<Frame>
    decreases |stack|
  {
    if stack != [] && indent <= stack[|stack| - 1].indent then Popped(stack[..|stack| - 1], indent) else stack
  }

  /** A line opens a block, edits a policy, or is wrong. */
  datatype Line = Opens(block: Block) | Edits(target: Target, edit: Edit) | Wrong(problem: Problem)

  function KeyValue(lex: Lex, trim: string, edit: (string, string) -> Edit, target: Target): Line {
    match SplitKV(lex, trim)
    case None => Wrong(NotKeyValue(trim))
    case Some((key, val)) => Edits(target, edit(key, val))
  }

  /** What a line means inside the innermost open block. */
  function Inside(lex: Lex, top: Block, trim: string): Line {
    match top
    case Tools =>
      if trim != "" && trim[|trim| - 1] == ':' then Opens(Tool(trim[..|trim| - 1])) else Wrong(Unexpected(trim))
    case Normalize(tool) => KeyValue(lex, trim, (k, v) => SetTransforms(k, v), ToTool(tool))
    case RateLimit(tool) => KeyValue(lex, trim, (k, v) => SetRate(k, v), ToTool(tool))
    case Defaults => Setting(lex, ToDefaults, "", trim)
    case Tool(name) => Setting(lex, ToTool(name), name, trim)
  }

  /** A setting, or one of the two blocks inside a policy; `tool` is empty under defaults. */
  function Setting(lex: Lex, target: Target, tool: string, trim: string): Line {
    if trim == "normalize:" then Opens(Normalize(tool))
    else if trim == "rate_limit:" then Opens(RateLimit(tool))
    else KeyValue(lex, trim, (k, v) => Assign(k, v), target)
  }

  function Read(lex: Lex, stack: seq<Frame>, indent: nat, trim: string): Line {
    if indent == 0 && trim == "defaults:" then Opens(Defaults)
    else if indent == 0 && trim == "tools:" then Opens(Tools)
    else if stack == [] then Wrong(Unexpected(trim))
    else Inside(lex, stack[|stack| - 1].block, trim)
  }

  function Step(lex: Lex, st: State, raw: string): Parsed<State> {
    var line := StripComment(raw);
    var trim := Trim(lex.t, line);
    if trim == "" then Ok(st)
    else
      var stack := Popped(st.stack, Indent(line));
      match Read(lex, stack, Indent(line), trim)
      case Wrong(problem) => Err(problem)
      case Opens(block) =>
        Ok(State(if block.Tool? then Put(st.cfg, ToTool(block.name), EMPTY) else st.cfg, stack + [Frame(Indent(line), block)]))
      case Edits(target, edit) =>
        match Edited(lex, At(st.cfg, target), edit)
        case Err(problem) => Err(problem)
        case Ok(p) => Ok(State(Put(st.cfg, target, p), stack))
  }

  function Steps(lex: Lex, st: State, lines: seq<string>): Parsed<State> {
    if lines == [] then Ok(st)
    else
      match Steps(lex, st, lines[..|lines| - 1])
      case Err(problem) => Err(problem)
      case Ok(mid) => Step(lex, mid, lines[|lines| - 1])
  }

  const START := State(Config(EMPTY, map[]), [])

  // ---- the stack

  predicate Deepening(stack: seq<Frame>) {
    forall i, j :: 0 <= i < j < |stack| ==> stack[i].indent < stack[j].indent
  }

  /** Defaults, or tools and possibly a tool in it, and possibly a nested block that carries the
      name of the tool around it. */
  predicate Legal(stack: seq<Frame>) {
    && |stack| <= 3
    && (|stack| >= 1 ==> stack[0].indent == 0 && (stack[0].block.Defaults? || stack[0].block.Tools?))
    && (|stack| >= 2 ==>
          if stack[0].block.Tools? then stack[1].block.Tool? else Nested(stack[1].block, ""))
    && (|stack| == 3 ==> stack[1].block.Tool? && Nested(stack[2].block, stack[1].block.name))
  }

  predicate Nested(b: Block, tool: string) {
    b == Normalize(tool) || b == RateLimit(tool)
  }

  ghost predicate Valid(st: State) {
    && Deepening(st.stack) && Legal(st.stack)
    && forall i :: 0 <= i < |st.stack| && st.stack[i].block.Tool? ==> st.stack[i].block.name in st.cfg.tools
  }

  lemma {:induction false} PoppedIsPrefix(stack: seq<Frame>, indent: nat)
    ensures exists n: nat :: n <= |stack| && Popped(stack, indent) == stack[..n]
    ensures Popped(stack, indent) != [] ==> Popped(stack, indent)[|Popped(stack, indent)| - 1].indent < indent
    decreases |stack|
  {
    if stack != [] && indent <= stack[|stack| - 1].indent {
      PoppedIsPrefix(stack[..|stack| - 1], indent);
      var n: nat :| n <= |stack| - 1 && Popped(stack[..|stack| - 1], indent) == stack[..|stack| - 1][..n];
      assert stack[..|stack| - 1][..n] == stack[..n];
    } else {
      assert stack[..|stack|] == stack;
    }
  }

  lemma PoppedValid(st: State, indent: nat)
    requires Valid(st)
    ensures Valid(st.(stack := Popped(st.stack, indent)))
    ensures forall i :: 0 <= i < |Popped(st.stack, indent)| ==> Popped(st.stack, indent)[i].indent < indent
  {
    PoppedIsPrefix(st.stack, indent);
  }

  lemma OpenValid(lex: Lex, st: State, indent: nat, trim: string)
    requires Valid(st) && Read(lex, st.stack, indent, trim).Opens?
    requires forall i :: 0 <= i < |st.stack| ==> st.stack[i].indent < indent
    ensures var b := Read(lex, st.stack, indent, trim).block;
      Legal(st.stack + [Frame(indent, b)]) && Deepening(st.stack + [Frame(indent, b)])
  {
  }

  /** Whatever the file says, every accepted line leaves a legal stack. */
  lemma StepValid(lex: Lex, st: State, raw: string)
    requires Valid(st) && Step(lex, st, raw).Ok?
    ensures Valid(Step(lex, st, raw).value)
  {
    var line := StripComment(raw);
    PoppedValid(st, Indent(line));
    var mid := st.(stack := Popped(st.stack, Indent(line)));
    if Trim(lex.t, line) != "" && Read(lex, mid.stack, Indent(line), Trim(lex.t, line)).Opens? {
      OpenValid(lex, mid, Indent(line), Trim(lex.t, line));
    }
  }

  lemma {:induction false} EveryPrefixIsValid(lex: Lex, lines: seq<string>)
    requires Steps(lex, START, lines).Ok?
    ensures Valid(Steps(lex, START, lines).value)
  {
    if lines != [] {
      EveryPrefixIsValid(lex, lines[..|lines| - 1]);
      StepValid(lex, Steps(lex, START, lines[..|lines| - 1]).value, lines[|lines| - 1]);
    }
  }

  // ---- what a line may change

  /** The policy the innermost open block stands for. */
  function Innermost(stack: seq<Frame>): Option<Target> {
    if stack == [] then None
    else match stack[|stack| - 1].block
      case Defaults => Some(ToDefaults)
      case Tools => None
      case Tool(name) => Some(ToTool(name))
      case Normalize(tool) => Some(ToTool(tool))
      case RateLimit(tool) => Some(ToTool(tool))
  }

  predicate Has(cfg: Config, target: Target) {
    target.ToDefaults? || target.name in cfg.tools
  }

  lemma EditsInnermost(lex: Lex, stack: seq<Frame>, indent: nat, trim: string)
    requires Read(lex, stack, indent, trim).Edits?
    ensures Innermost(stack) == Some(Read(lex, stack, indent, trim).target)
    ensures Read(lex, stack, indent, trim).target.ToDefaults? ==> Read(lex, stack, indent, trim).edit.Assign?
  {
  }

  /** An accepted line changes the policy of its innermost block and no other. */
  lemma LineTouchesInnermost(lex: Lex, st: State, raw: string, target: Target)
    requires Step(lex, st, raw).Ok? && Innermost(Step(lex, st, raw).value.stack) != Some(target)
    ensures At(Step(lex, st, raw).value.cfg, target) == At(st.cfg, target)
    ensures Has(Step(lex, st, raw).value.cfg, target) <==> Has(st.cfg, target)
  {
    var line := StripComment(raw);
    var trim, stack := Trim(lex.t, line), Popped(st.stack, Indent(line));
    if trim != "" && Read(lex, stack, Indent(line), trim).Edits? {
      EditsInnermost(lex, stack, Indent(line), trim);
    }
  }

  /** The edit a line makes, if any; opening a tool empties its policy. */
  function EffectOf(lex: Lex, st: State, raw: string): seq<(Target, Edit)> {
    var line := StripComment(raw);
    var trim := Trim(lex.t, line);
    if trim == "" then []
    else match Read(lex, Popped(st.stack, Indent(line)), Indent(line), trim)
      case Wrong(_) => []
      case Opens(block) => if block.Tool? then [(ToTool(block.name), Reset)] else []
      case Edits(target, edit) => [(target, edit)]
  }

  function Effects(lex: Lex, lines: seq<string>): seq<(Target, Edit)> {
    if lines == [] then []
    else
      var before := lines[..|lines| - 1];
      match Steps(lex, START, before)
      case Err(_) => []
      case Ok(mid) => Effects(lex, before) + EffectOf(lex, mid, lines[|lines| - 1])
  }

  /** A policy built from nothing by the edits addressed to it, in order. */
  function Folded(lex: Lex, effects: seq<(Target, Edit)>, target: Target): ToolPolicy {
    if effects == [] then EMPTY
    else
      var p := Folded(lex, effects[..|effects| - 1], target);
      var (to, edit) := effects[|effects| - 1];
      if to != target then p
      else match Edited(lex, p, edit) case Ok(q) => q case Err(_) => p
  }

  lemma FoldedOne(lex: Lex, effects: seq<(Target, Edit)>, more: seq<(Target, Edit)>, target: Target)
    requires |more| == 1
    ensures Folded(lex, effects + more, target)
         == if more[0].0 != target then Folded(lex, effects, target)
            else match Edited(lex, Folded(lex, effects, target), more[0].1)
                 case Ok(q) => q
                 case Err(_) => Folded(lex, effects, target)
  {
    assert (effects + more)[..|effects|] == effects;
  }

  lemma StepIsEffect(lex: Lex, st: State, raw: string, target: Target)
    requires Step(lex, st, raw).Ok?
    ensures var t, e := Step(lex, st, raw).value, EffectOf(lex, st, raw);
      && |e| <= 1
      && (if |e| == 1 && e[0].0 == target
          then Has(t.cfg, target) && Edited(lex, At(st.cfg, target), e[0].1) == Ok(At(t.cfg, target))
          else At(t.cfg, target) == At(st.cfg, target) && (Has(t.cfg, target) <==> Has(st.cfg, target)))
  {
  }

  /** Every policy of an accepted file is the fold of the lines addressed to it, whatever lines
      for other blocks lie between them, and a tool exists exactly when a line addressed it. */
  lemma {:induction false} PolicyIsFoldOfItsLines(lex: Lex, lines: seq<string>, target: Target)
    requires Steps(lex, START, lines).Ok?
    ensures At(Steps(lex, START, lines).value.cfg, target) == Folded(lex, Effects(lex, lines), target)
    ensures Has(Steps(lex, START, lines).value.cfg, target) <==>
      target.ToDefaults? || exists e :: e in Effects(lex, lines) && e.0 == target
    decreases |lines|
  {
    if lines != [] {
      var before, raw := lines[..|lines| - 1], lines[|lines| - 1];
      PolicyIsFoldOfItsLines(lex, before, target);
      var mid := Steps(lex, START, before).value;
      StepIsEffect(lex, mid, raw, target);
      var e, es := EffectOf(lex, mid, raw), Effects(lex, before);
      assert Effects(lex, lines) == es + e;
      if |e| == 1 {
        FoldedOne(lex, es, e, target);
        assert e[0] in es + e;
      } else {
        assert es + e == es;
      }
    }
  }

  // ---- nested blocks under defaults

  predicate NoNested(p: ToolPolicy) { p.normalize == map[] && p.rps == 0.0 && p.burst == 0 }

  lemma TextStaysFlat(lex: Lex, p: ToolPolicy, key: string, val: string)
    requires NoNested(p) && AssignedText(lex, p, key, val).Ok?
    ensures NoNested(AssignedText(lex, p, key, val).value)
  {
  }

  lemma AssignedStaysFlat(lex: Lex, p: ToolPolicy, key: string, val: string)
    requires NoNested(p) && Assigned(lex, p, key, val).Ok?
    ensures NoNested(Assigned(lex, p, key, val).value)
  {
    if AssignedText(lex, p, key, val).Ok? { TextStaysFlat(lex, p, key, val); }
  }

  lemma DefaultsAreAssigned(lex: Lex, st: State, raw: string)
    ensures var e := EffectOf(lex, st, raw); |e| == 1 && e[0].0 == ToDefaults ==> e[0].1.Assign?
  {
    var line := StripComment(raw);
    var trim, stack := Trim(lex.t, line), Popped(st.stack, Indent(line));
    if trim != "" && Read(lex, stack, Indent(line), trim).Edits? {
      EditsInnermost(lex, stack, Indent(line), trim);
    }
  }

  lemma DefaultsStayFlat(lex: Lex, st: State, raw: string)
    requires NoNested(st.cfg.defaults) && Step(lex, st, raw).Ok?
    ensures NoNested(Step(lex, st, raw).value.cfg.defaults)
  {
    StepIsEffect(lex, st, raw, ToDefaults);
    DefaultsAreAssigned(lex, st, raw);
    var e := EffectOf(lex, st, raw);
    if |e| == 1 && e[0].0 == ToDefaults {
      AssignedStaysFlat(lex, st.cfg.defaults, e[0].1.key, e[0].1.val);
    }
  }

  /** A block nested directly under `defaults:`. */
  predicate UnderDefaults(stack: seq<Frame>) {
    |stack| == 2 && stack[0].block.Defaults?
  }

  /** Every edit made there is addressed to the tool with the empty name, and is one of the two
      nested kinds. */
  lemma NestedUnderDefaults(lex: Lex, st: State, raw: string)
    requires Valid(st) && Step(lex, st, raw).Ok? && UnderDefaults(Step(lex, st, raw).value.stack)
    ensures forall e :: e in EffectOf(lex, st, raw) ==> e.0 == ToTool("") && (e.1.SetTransforms? || e.1.SetRate?)
  {
    var line := StripComment(raw);
    var trim, stack := Trim(lex.t, line), Popped(st.stack, Indent(line));
    PoppedValid(st, Indent(line));
    if trim != "" {
      var read := Read(lex, stack, Indent(line), trim);
      if read.Edits? { EditsUnderDefaults(lex, stack, Indent(line), trim); }
    }
  }

  lemma EditsUnderDefaults(lex: Lex, stack: seq<Frame>, indent: nat, trim: string)
    requires Legal(stack) && UnderDefaults(stack) && Read(lex, stack, indent, trim).Edits?
    ensures var e := Read(lex, stack, indent, trim);
      e.target == ToTool("") && (e.edit.SetTransforms? || e.edit.SetRate?)
  {
    assert Nested(stack[1].block, "");
  }

  /** No file gives the defaults transforms or a rate limit: whatever a further line sets in such a
      block under `defaults:` is set for the tool with the empty name. */
  lemma {:induction false} DefaultsHaveNoNestedBlocks(lex: Lex, lines: seq<string>)
    requires Steps(lex, START, lines).Ok?
    ensures NoNested(Steps(lex, START, lines).value.cfg.defaults)
    ensures var st := Steps(lex, START, lines).value;
      forall raw :: Step(lex, st, raw).Ok? && UnderDefaults(Step(lex, st, raw).value.stack) ==>
        forall e :: e in EffectOf(lex, st, raw) ==> e.0 == ToTool("") && (e.1.SetTransforms? || e.1.SetRate?)
    decreases |lines|
  {
    EveryPrefixIsValid(lex, lines);
    var st := Steps(lex, START, lines).value;
    forall raw | Step(lex, st, raw).Ok? && UnderDefaults(Step(lex, st, raw).value.stack)
      ensures forall e :: e in EffectOf(lex, st, raw) ==> e.0 == ToTool("") && (e.1.SetTransforms? || e.1.SetRate?)
    {
      NestedUnderDefaults(lex, st, raw);
    }
    if lines != [] {
      DefaultsHaveNoNestedBlocks(lex, lines[..|lines| - 1]);
      DefaultsStayFlat(lex, Steps(lex, START, lines[..|lines| - 1]).value, lines[|lines| - 1]);
    }
  }

  // ---- the parser

  class Parser {
    const lex: Lex
    var cfg: Config
    var stack: seq<Frame>

    constructor (lex: Lex)
      ensures View() == START && this.lex == lex
    {
      this.lex := lex;
      cfg, stack := Config(EMPTY, map[]), [];
    }

    ghost function View(): State
      reads this
    {
      State(cfg, stack)
    }

    method Pop(indent: nat)
      modifies this`stack
      ensures stack == Popped(old(stack), indent)
    {
      while |stack| > 0 && indent <= stack[|stack| - 1].indent
        invariant Popped(stack, indent) == Popped(old(stack), indent)
        decreases |stack|
      {
        stack := stack[..|stack| - 1];
      }
    }

    method Write(target: Target, edit: Edit) returns (r: Parsed<()>)
      modifies this`cfg
      ensures match Edited(lex, At(old(cfg), target), edit)
        case Err(problem) => r == Err(problem) && cfg == old(cfg)
        case Ok(p) => r == Ok(()) && cfg == Put(old(cfg), target, p)
    {
      match Edited(lex, At(cfg, target), edit)
      case Err(problem) => return Err(problem);
      case Ok(p) =>
        match target {
          case ToDefaults => cfg := Config(p, cfg.tools);
          case ToTool(name) => cfg := Config(cfg.defaults, cfg.tools[name := p]);
        }
        return Ok(());
    }

    /** The body of the line loop. */
    method ReadLine(raw: string) returns (r: Parsed<()>)
      modifies this
      ensures match Step(lex, old(View()), raw)
        case Err(problem) => r == Err(problem)
        case Ok(st) => r == Ok(()) && View() == st
    {
      var line := StripComment(raw);
      var trim := Trim(lex.t, line);
      if trim == "" { return Ok(()); }
      var indent := LeadingSpaces(line);
      Pop(indent);
      match Read(lex, stack, indent, trim)
      case Wrong(problem) => return Err(problem);
      case Opens(block) =>
        if block.Tool? { cfg := Config(cfg.defaults, cfg.tools[block.name := EMPTY]); }
        stack := stack + [Frame(indent, block)];
        return Ok(());
      case Edits(target, edit) =>
        r := Write(target, edit);
    }

    /** `parse`: the configuration, or the first bad line, counted from one, and what is wrong
        with it. */
    method Parse(lines: seq<string>) returns (bad: Option<(nat, Problem)>)
      requires View() == START
      modifies this
      ensures bad.None? ==> Steps(lex, START, lines) == Ok(View()) && Valid(View())
      ensures bad.Some? ==>
        && 1 <= bad.value.0 <= |lines|
        && var before := Steps(lex, START, lines[..bad.value.0 - 1]);
           before.Ok? && Step(lex, before.value, lines[bad.value.0 - 1]) == Err(bad.value.1)
    {
      var i := 0;
      while i < |lines|
        invariant 0 <= i <= |lines|
        invariant Steps(lex, START, lines[..i]) == Ok(View())
      {
        assert lines[..i + 1][..i] == lines[..i];
        var r := ReadLine(lines[i]);
        if r.Err? { return Some((i + 1, r.problem)); }
        i := i + 1;
      }
      assert lines[..|lines|] == lines;
      EveryPrefixIsValid(lex, lines);
      return None;
    }
  }
}
