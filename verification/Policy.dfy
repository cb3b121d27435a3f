/** Per-tool policies and their defaults (internal/policy/policy.go). */
module Policy {
  import opened KeyOrder
  import opened Strings

  datatype Mode = NoMode | Strict | CacheMode | LogOnly | Off | UnknownMode(name: string)
  datatype Strategy = NoStrategy | CachedResponse | SynthesizedAck

  datatype ToolPolicy = ToolPolicy(
    mode: Mode,
    ttl: int,
    normalize: map<string, seq<string>>,
    fingerprintFields: seq<string>,
    threshold: real,
    confirmReplay: bool,
    rps: real,
    burst: int,
    allowedCallers: seq<string>,
    strategy: Strategy,
    template: string,
    redactRequest: bool
  )
  {
    predicate Coalesces() { mode == Strict || mode == CacheMode }

    predicate AllowsCaller(caller: string) { allowedCallers == [] || caller in allowedCallers }

    /** Only these three settings fall back to the defaults; an explicit zero counts as unset. */
    function MergeDefaults(d: ToolPolicy): ToolPolicy {
      this.(mode := if mode == NoMode then d.mode else mode,
            ttl := if ttl == 0 then d.ttl else ttl,
            threshold := if threshold == 0.0 then d.threshold else threshold)
    }

    /** The acknowledgement returned when no response body is stored. */
    function Acknowledgement(tool: string, hash: string): string {
      Expand(if template == "" then DEFAULT_TEMPLATE else template, tool, hash)
    }
  }

  const EMPTY := ToolPolicy(NoMode, 0, map[], [], 0.0, false, 0.0, 0, [], NoStrategy, "", false)

  const DEFAULT_TEMPLATE := "{\"replayed\":true,\"hash\":\"$hash\"}"

  datatype Config = Config(defaults: ToolPolicy, tools: map<string, ToolPolicy>)
  {
    function For(tool: string): ToolPolicy {
      if tool in tools then tools[tool].MergeDefaults(defaults) else defaults
    }
  }

  // ---- callers and defaults

  /** `AllowsCaller`: nobody is kept out by an empty list, and otherwise the caller must be on it. */
  method CheckCaller(p: ToolPolicy, caller: string) returns (ok: bool)
    ensures ok <==> |p.allowedCallers| == 0 || exists k :: 0 <= k < |p.allowedCallers| && p.allowedCallers[k] == caller
    ensures ok == p.AllowsCaller(caller)
  {
    if |p.allowedCallers| == 0 { return true; }
    var k := 0;
    while k < |p.allowedCallers|
      invariant 0 <= k <= |p.allowedCallers|
      invariant forall j :: 0 <= j < k ==> p.allowedCallers[j] != caller
    {
      if p.allowedCallers[k] == caller { return true; }
      k := k + 1;
    }
    return false;
  }

  /** A tool without an entry has the default policy.  A tool with one keeps every setting it makes;
      the default is taken for its mode, its time to live and its threshold, and for these only where
      it is silent.  No other default reaches it. */
  lemma DefaultsFillIn(cfg: Config, tool: string)
    ensures tool !in cfg.tools ==> cfg.For(tool) == cfg.defaults
    ensures tool in cfg.tools ==>
      var own, d, p := cfg.tools[tool], cfg.defaults, cfg.For(tool);
      && (own.mode != NoMode ==> p.mode == own.mode) && (own.mode == NoMode ==> p.mode == d.mode)
      && (own.ttl != 0 ==> p.ttl == own.ttl) && (own.ttl == 0 ==> p.ttl == d.ttl)
      && (own.threshold != 0.0 ==> p.threshold == own.threshold) && (own.threshold == 0.0 ==> p.threshold == d.threshold)
      && p.normalize == own.normalize && p.fingerprintFields == own.fingerprintFields
      && p.allowedCallers == own.allowedCallers && p.confirmReplay == own.confirmReplay && p.rps == own.rps
      && p.burst == own.burst && p.strategy == own.strategy && p.template == own.template
      && p.redactRequest == own.redactRequest
  {
  }

  /** So a tool that sets all three is blind to the defaults. */
  lemma ExplicitSettingsWin(cfg: Config, other: ToolPolicy, tool: string)
    requires tool in cfg.tools
    requires cfg.tools[tool].mode != NoMode && cfg.tools[tool].ttl != 0 && cfg.tools[tool].threshold != 0.0
    ensures cfg.For(tool) == cfg.(defaults := other).For(tool) == cfg.tools[tool]
  {
  }

  // ---- template expansion

  /** One pass from the left; inserted text is never looked at again. */
  function Expand(tmpl: string, tool: string, hash: string): string {
    if tmpl == [] then ""
    else if HasPrefix(tmpl, "$hash") then hash + Expand(tmpl[5..], tool, hash)
    else if HasPrefix(tmpl, "$tool") then tool + Expand(tmpl[5..], tool, hash)
    else [tmpl[0]] + Expand(tmpl[1..], tool, hash)
  }

  /** Substituting each token for itself gives the template back: exactly the tokens are
      replaced, in place, and everything else is copied. */
  lemma {:induction false} ExpandToItself(tmpl: string)
    ensures Expand(tmpl, "$tool", "$hash") == tmpl
    decreases |tmpl|
  {
    if tmpl == [] {
    } else if HasPrefix(tmpl, "$hash") || HasPrefix(tmpl, "$tool") {
      ExpandToItself(tmpl[5..]);
      assert tmpl == tmpl[..5] + tmpl[5..];
    } else {
      ExpandToItself(tmpl[1..]);
      assert tmpl == [tmpl[0]] + tmpl[1..];
    }
  }

  /** A template splits into pieces once and for all; expansion fills in the token pieces, so
      the inserted text has no influence on where substitution happens. */
  lemma {:induction false} TemplatePieces(tmpl: string) returns (pieces: seq<string>)
    ensures Concat(pieces) == tmpl
    ensures forall tool, hash :: Expand(tmpl, tool, hash) == Concat(Fill(pieces, tool, hash))
    decreases |tmpl|
  {
    if tmpl == [] {
      pieces := [];
    } else {
      var n := if HasPrefix(tmpl, "$hash") || HasPrefix(tmpl, "$tool") then 5 else 1;
      var rest := TemplatePieces(tmpl[n..]);
      pieces := [tmpl[..n]] + rest;
      assert tmpl[..1] == [tmpl[0]] && tmpl == tmpl[..n] + tmpl[n..];
      forall tool, hash ensures Expand(tmpl, tool, hash) == Concat(Fill(pieces, tool, hash)) {
        assert Fill(pieces, tool, hash)[1..] == Fill(rest, tool, hash);
      }
    }
  }

  function Concat(pieces: seq<string>): string {
    if pieces == [] then "" else pieces[0] + Concat(pieces[1..])
  }

  function Fill(pieces: seq<string>, tool: string, hash: string): seq<string> {
    seq(|pieces|, i requires 0 <= i < |pieces| =>
      if pieces[i] == "$hash" then hash else if pieces[i] == "$tool" then tool else pieces[i])
  }

  /** `SynthesizeReplay`. */
  method SynthesizeReplay(p: ToolPolicy, tool: string, hash: string) returns (out: string)
    ensures out == p.Acknowledgement(tool, hash)
  {
    var tmpl := if p.template == "" then DEFAULT_TEMPLATE else p.template;
    ghost var suffixes := Suffixes(tmpl, tool, hash);
    SuffixEnds(tmpl, tool, hash);
    out := ExpandTokens(tmpl, tool, hash, suffixes);
  }

  /** The expansions of all suffixes of the template. */
  ghost function Suffixes(tmpl: string, tool: string, hash: string): (r: seq<string>)
    ensures |r| == |tmpl| + 1
  {
    seq(|tmpl| + 1, i requires 0 <= i <= |tmpl| => Expand(tmpl[i..], tool, hash))
  }

  ghost predicate SuffixAt(suffixes: seq<string>, tmpl: string, tool: string, hash: string, i: nat)
    requires i <= |tmpl| && |suffixes| == |tmpl| + 1
  {
    suffixes[i] == Expand(tmpl[i..], tool, hash)
  }

  ghost predicate AreSuffixes(suffixes: seq<string>, tmpl: string, tool: string, hash: string) {
    |suffixes| == |tmpl| + 1 && forall i :: 0 <= i <= |tmpl| ==> SuffixAt(suffixes, tmpl, tool, hash, i)
  }

  lemma SuffixEnds(tmpl: string, tool: string, hash: string)
    ensures var r := Suffixes(tmpl, tool, hash);
      AreSuffixes(r, tmpl, tool, hash) && r[0] == Expand(tmpl, tool, hash) && r[|tmpl|] == ""
  {
    assert tmpl[0..] == tmpl && tmpl[|tmpl|..] == "";
  }

  /** The byte loop. */
  method ExpandTokens(tmpl: string, tool: string, hash: string, ghost suffixes: seq<string>) returns (out: string)
    requires AreSuffixes(suffixes, tmpl, tool, hash) && suffixes[|tmpl|] == ""
    ensures out == suffixes[0]
  {
    out := "";
    var i := 0;
    while i < |tmpl|
      invariant 0 <= i <= |tmpl| && out + suffixes[i] == suffixes[0]
    {
      var text, n := NextToken(tmpl, i, tool, hash, suffixes);
      Regroup(out, text, suffixes[i + n]);
      out := out + text;
      i := i + n;
    }
    assert out + "" == out;
  }

  /** A token and its replacement, or one byte that stands for itself. */
  method NextToken(tmpl: string, i: nat, tool: string, hash: string, ghost suffixes: seq<string>)
    returns (text: string, n: nat)
    requires i < |tmpl| && AreSuffixes(suffixes, tmpl, tool, hash)
    ensures 0 < n <= |tmpl| - i && suffixes[i] == text + suffixes[i + n]
  {
    ExpandAt(tmpl, i, tool, hash);
    assert SuffixAt(suffixes, tmpl, tool, hash, i);
    if HasPrefix(tmpl[i..], "$hash") {
      text, n := hash, 5;
    } else if HasPrefix(tmpl[i..], "$tool") {
      text, n := tool, 5;
    } else {
      text, n := [tmpl[i]], 1;
    }
    assert SuffixAt(suffixes, tmpl, tool, hash, i + n);
  }

  lemma ExpandAt(tmpl: string, i: nat, tool: string, hash: string)
    requires i < |tmpl|
    ensures HasPrefix(tmpl[i..], "$hash") ==>
      i + 5 <= |tmpl| && Expand(tmpl[i..], tool, hash) == hash + Expand(tmpl[i + 5..], tool, hash)
    ensures !HasPrefix(tmpl[i..], "$hash") && HasPrefix(tmpl[i..], "$tool") ==>
      i + 5 <= |tmpl| && Expand(tmpl[i..], tool, hash) == tool + Expand(tmpl[i + 5..], tool, hash)
    ensures !HasPrefix(tmpl[i..], "$hash") && !HasPrefix(tmpl[i..], "$tool") ==>
      Expand(tmpl[i..], tool, hash) == [tmpl[i]] + Expand(tmpl[i + 1..], tool, hash)
  {
    assert tmpl[i..][1..] == tmpl[i + 1..];
    if i + 5 <= |tmpl| { assert tmpl[i..][5..] == tmpl[i + 5..]; }
  }

  // ---- what an acknowledgement says

  lemma {:induction false} PlainExpands(text: string, rest: string, tool: string, hash: string)
    requires '$' !in text
    ensures Expand(text + rest, tool, hash) == text + Expand(rest, tool, hash)
  {
    if text == [] {
      assert text + rest == rest;
    } else {
      assert (text + rest)[0] == text[0] && (text + rest)[1..] == text[1..] + rest;
      NotAToken(text + rest, "$hash");
      NotAToken(text + rest, "$tool");
      PlainExpands(text[1..], rest, tool, hash);
      Regroup([text[0]], text[1..], Expand(rest, tool, hash));
      assert text == [text[0]] + text[1..];
    }
  }

  lemma NotAToken(s: string, token: string)
    requires s != [] && token != [] && s[0] != token[0]
    ensures !HasPrefix(s, token)
  {
    assert |token| <= |s| ==> s[..|token|][0] == s[0];
  }

  lemma TokensExpand(rest: string, tool: string, hash: string)
    ensures Expand("$hash" + rest, tool, hash) == hash + Expand(rest, tool, hash)
    ensures Expand("$tool" + rest, tool, hash) == tool + Expand(rest, tool, hash)
  {
    var h, t := "$hash" + rest, "$tool" + rest;
    assert h[..5] == "$hash" && h[5..] == rest && t[..5] == "$tool" && t[5..] == rest;
    assert t[1] == 't' && "$hash"[1] == 'h';
  }

  /** The tool's name stands for "$tool" and the fingerprint for "$hash", and the default says that the
      call was replayed and under which fingerprint. */
  lemma AcknowledgementSays(p: ToolPolicy, a: string, b: string, c: string, tool: string, hash: string)
    requires '$' !in a && '$' !in b && '$' !in c
    ensures p.template == a + ("$tool" + (b + ("$hash" + c))) ==> p.Acknowledgement(tool, hash) == a + (tool + (b + (hash + c)))
    ensures p.template == "" ==> p.Acknowledgement(tool, hash) == "{\"replayed\":true,\"hash\":\"" + (hash + "\"}")
  {
    TailExpands(c, tool, hash);
    TokensExpand(c, tool, hash);
    PlainExpands(b, "$hash" + c, tool, hash);
    TokensExpand(b + ("$hash" + c), tool, hash);
    PlainExpands(a, "$tool" + (b + ("$hash" + c)), tool, hash);
    DefaultSays(tool, hash);
  }

  lemma TailExpands(c: string, tool: string, hash: string)
    requires '$' !in c
    ensures Expand(c, tool, hash) == c
  {
    PlainExpands(c, "", tool, hash);
    assert c + "" == c;
  }

  lemma DefaultSays(tool: string, hash: string)
    ensures Expand(DEFAULT_TEMPLATE, tool, hash) == "{\"replayed\":true,\"hash\":\"" + (hash + "\"}")
  {
    var front, back := "{\"replayed\":true,\"hash\":\"", "\"}";
    assert DEFAULT_TEMPLATE == front + ("$hash" + back);
    PlainExpands(front, "$hash" + back, tool, hash);
    TokensExpand(back, tool, hash);
    TailExpands(back, tool, hash);
  }
}
