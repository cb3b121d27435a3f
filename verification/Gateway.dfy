/** `Lookup`, `Cache` and `decide` of internal/pipeline/pipeline.go, the halves that the stdio
    transport calls separately, outside shadow mode. */
module Gateway {
  import opened Outcomes
  import opened Policy
  import opened Pipeline
  import C = Coalescing
  import Store
  import Search

  /** What is decided about a call, and from which entry. */
  datatype Choice = Choice(decision: C.Decision, hit: Option<(Store.Entry, C.Kind)>)

  const FORWARD := Choice(C.Forward, None)

  predicate Searches(env: Env, i: nat)
    requires i < |env.reqs|
  {
    env.embed.Some? && env.Pol(i).threshold > 0.0 && env.Intent(i) != ""
  }

  function Hit(env: Env, i: nat, e: Store.Entry, kind: C.Kind): Choice
    requires i < |env.reqs|
  {
    Choice(if env.Confirms(i) then C.Block else C.Replay, Some((e, kind)))
  }

  /** `decide`, given what the semantic search would find. */
  function Decided(env: Env, i: nat, tab: Store.Table, now: int, ok: bool, found: Option<Search.Match>): Choice
    requires i < |env.reqs|
  {
    if !env.Pol(i).Coalesces() || !ok then FORWARD
    else match Store.Lookup(tab, now, env.Key(i))
      case Some(e) => Hit(env, i, e, C.Exact)
      case None =>
        if Searches(env, i) && found.Some? then Hit(env, i, found.value.entry, C.Semantic) else FORWARD
  }

  /** The store after `decide`: log-only calls read too, calls in an unknown mode do not. */
  function TabAfter(env: Env, i: nat, tab: Store.Table, now: int, ok: bool): Store.Table
    requires i < |env.reqs|
  {
    if ok && (env.Pol(i).Coalesces() || env.Pol(i).mode == LogOnly) then Store.AfterGet(tab, now, env.Key(i)) else tab
  }

  // ---- both transports decide alike

  /** The stage of `Apply` that stands for a decision. */
  function StageOf(c: Choice): Pc {
    match c.hit
    case Some((e, kind)) => if c.decision == C.Block then Done(Blocked(e, kind)) else Hitting(e, kind)
    case None => Missed
  }

  /** Reading the store and, where that leads to it, searching takes an applied call to exactly
      the stage that `decide` would have returned, and leaves the same store behind. */
  lemma DecidesLikeApply(env: Env, i: nat, g: Shared, ok: bool, failed: bool, found: Option<Search.Match>)
    requires i < |env.reqs| && Possible(env, i, Searching, ReadStep(env, i, g, ok).1, Act.Search(failed, found))
    ensures var (pc, g') := ReadStep(env, i, g, ok);
      var end := if pc.Searching? then Perform(env, i, pc, g', Act.Search(failed, found)).0 else pc;
      end == StageOf(Decided(env, i, g.tab, g.now, ok, found)) && g'.tab == TabAfter(env, i, g.tab, g.now, ok)
  {
  }

  // ---- the methods

  datatype Reply = Reply(result: C.Result, intent: string) | BadBody

  const NONE := C.Result(C.Forward, C.NoMatch, "", 0, "")

  function Answer(env: Env, i: nat, c: Choice): C.Result
    requires i < |env.reqs|
  {
    match c.hit
    case Some((e, kind)) =>
      if c.decision == C.Block then C.Result(C.Block, kind, e.hash, 409, "") else ReplayResult(env, i, e, kind)
    case None => NONE.(hash := env.Hash(i))
  }

  function Refusal(env: Env, i: nat, allowed: bool): Option<C.Result>
    requires i < |env.reqs|
  {
    if !env.Pol(i).AllowsCaller(env.reqs[i].caller) then Some(NONE.(decision := C.Forbidden, status := 403))
    else if env.Pol(i).rps > 0.0 && !allowed then Some(NONE.(decision := C.RateLimited, status := 429))
    else None
  }

  /** Everything `Lookup` returns. */
  function LookedUp(env: Env, i: nat, tab: Store.Table, now: int, allowed: bool, ok: bool, found: Option<Search.Match>): Reply
    requires i < |env.reqs|
  {
    var pol := env.Pol(i);
    if pol.mode == Off then Reply(NONE, "")
    else if Refusal(env, i, allowed).Some? then Reply(Refusal(env, i, allowed).value, "")
    else if env.Analysed(i).None? then BadBody
    else Reply(Answer(env, i, Decided(env, i, tab, now, ok, found)), env.Intent(i))
  }

  /** The store after `Lookup`: untouched when a gate refuses, and a replay is counted. */
  function TabLookedUp(env: Env, i: nat, tab: Store.Table, now: int, ok: bool, r: Reply, counts: bool): Store.Table
    requires i < |env.reqs|
  {
    if r.BadBody? || env.Pol(i).mode == Off || r.result.decision.Forbidden? || r.result.decision.RateLimited? then tab
    else if r.result.decision.Replay? && counts then
      Store.AfterIncrement(TabAfter(env, i, tab, now, ok), Store.Key(env.Tool(i), r.result.hash))
    else TabAfter(env, i, tab, now, ok)
  }

  /** The audit record of a lookup with this result: the tool, its mode, what was decided and on which
      kind of match, and the fingerprint concerned; refusals have none. */
  function Recorded(env: Env, i: nat, r: C.Result): Record
    requires i < |env.reqs|
  {
    Record(i, env.Tool(i), env.Pol(i).mode, r.decision, r.kind,
      if r.decision == C.Forbidden || r.decision == C.RateLimited then "" else if r.hash == "" then env.Hash(i) else r.hash)
  }

  class Gateway {
    var tab: Store.Table
    var audit: seq<Record>

    method Decide(env: Env, i: nat, now: int, ok: bool, scanFails: bool, keys: seq<string>)
      returns (c: Choice, ghost found: Option<Search.Match>)
      requires i < |env.reqs|
      requires Store.IsScan(keys, TabAfter(env, i, tab, now, ok), now, env.Tool(i), Search.Always)
      modifies this`tab
      ensures tab == TabAfter(env, i, old(tab), now, ok) && c == Decided(env, i, old(tab), now, ok, found)
      ensures found.Some? ==>
        && !scanFails && env.Query(i).Some?
        && Search.IsBest(Store.Scanned(tab, now, env.Tool(i)), env.sqrt, env.Query(i).value, env.Pol(i).threshold, found)
      ensures Searches(env, i) && c.hit.None? && ok && env.Pol(i).Coalesces() && !scanFails && env.Query(i).Some? ==>
        forall k :: k in Store.Scanned(tab, now, env.Tool(i)) ==>
          !Search.Reaches(env.sqrt, env.Query(i).value, env.Pol(i).threshold, tab[k])
    {
      found := None;
      var pol := env.Pol(i);
      if pol.mode == LogOnly {
        if ok { tab := Store.AfterGet(tab, now, env.Key(i)); }
        return FORWARD, None;
      }
      if pol.mode != Strict && pol.mode != CacheMode { return FORWARD, None; }
      if !ok { return FORWARD, None; }
      var e := Store.Lookup(tab, now, env.Key(i));
      tab := Store.AfterGet(tab, now, env.Key(i));
      if e.Some? { return Hit(env, i, e.value, C.Exact), None; }
      if !Searches(env, i) { return FORWARD, None; }
      var best := Search.SemanticSearch(env.sqrt, env.Query(i), pol.threshold, tab, now, env.Tool(i), keys, scanFails);
      found := best;
      if best.None? { c := FORWARD; } else { c := Hit(env, i, best.value.entry, C.Semantic); }
    }

    method Note(env: Env, i: nat, d: C.Decision, kind: C.Kind, fingerprint: string, entryHash: string)
      requires i < |env.reqs|
      modifies this`audit
      ensures audit == old(audit) + [Line(env, i, d, kind, fingerprint, entryHash)]
    {
      var hash := if entryHash == "" then fingerprint else entryHash;
      audit := audit + [Record(i, env.Tool(i), env.Pol(i).mode, d, kind, hash)];
    }

    /** One record for every lookup that is neither in off mode nor rejected, and it names the
        decision returned. */
    method Lookup(env: Env, i: nat, now: int, allowed: bool, ok: bool, scanFails: bool, keys: seq<string>, counts: bool)
      returns (r: Reply, ghost found: Option<Search.Match>)
      requires i < |env.reqs|
      requires Store.IsScan(keys, TabAfter(env, i, tab, now, ok), now, env.Tool(i), Search.Always)
      modifies this
      ensures r == LookedUp(env, i, old(tab), now, allowed, ok, found)
      ensures tab == TabLookedUp(env, i, old(tab), now, ok, r, counts)
      ensures audit == if r.BadBody? || env.Pol(i).mode == Off then old(audit) else old(audit) + [Recorded(env, i, r.result)]
      ensures var list := env.Pol(i).allowedCallers;
        env.Pol(i).mode != Off && |list| > 0 && (forall k :: 0 <= k < |list| ==> list[k] != env.reqs[i].caller)
        <==> r.Reply? && r.result.decision == C.Forbidden
      ensures r.Reply? && r.result.decision == C.Forbidden ==>
        r == Reply(C.Result(C.Forbidden, C.NoMatch, "", 403, ""), "") && tab == old(tab)
      ensures r.Reply? && r.result.decision == C.RateLimited ==>
        r == Reply(C.Result(C.RateLimited, C.NoMatch, "", 429, ""), "") && tab == old(tab) && env.Pol(i).rps > 0.0 && !allowed
      ensures r.Reply? && r.result.decision == C.Block ==>
        r.result.status == 409 && r.result.body == "" && env.Pol(i).mode == Strict && env.Pol(i).confirmReplay
    {
      found := None;
      if env.Pol(i).mode == Off { return Reply(NONE, ""), None; }
      var refusal := Refuse(env, i, allowed);
      if refusal.Some? { return Reply(refusal.value, ""), None; }
      if env.Analysed(i).None? { return BadBody, None; }
      var result;
      result, found := Answered(env, i, now, ok, scanFails, keys, counts);
      r := Reply(result, env.Intent(i));
    }

    /** What is left when the gates are passed: decide, record, count, respond. */
    method Answered(env: Env, i: nat, now: int, ok: bool, scanFails: bool, keys: seq<string>, counts: bool)
      returns (r: C.Result, ghost found: Option<Search.Match>)
      requires i < |env.reqs|
      requires Store.IsScan(keys, TabAfter(env, i, tab, now, ok), now, env.Tool(i), Search.Always)
      modifies this
      ensures r == Answer(env, i, Decided(env, i, old(tab), now, ok, found))
      ensures r.decision == C.Forward || r.decision == C.Replay || r.decision == C.Block
      ensures r.decision == C.Block ==> r.status == 409 && r.body == "" && env.Pol(i).mode == Strict && env.Pol(i).confirmReplay
      ensures tab == if r.decision == C.Replay && counts
                     then Store.AfterIncrement(TabAfter(env, i, old(tab), now, ok), Store.Key(env.Tool(i), r.hash))
                     else TabAfter(env, i, old(tab), now, ok)
      ensures audit == old(audit) + [Recorded(env, i, r)]
    {
      var c;
      c, found := Decide(env, i, now, ok, scanFails, keys);
      r := Respond(env, i, c, counts);
    }

    /** The gates: the caller list, then the rate limiter. */
    method Refuse(env: Env, i: nat, allowed: bool) returns (r: Option<C.Result>)
      requires i < |env.reqs|
      modifies this`audit
      ensures r == Refusal(env, i, allowed)
      ensures audit == if r.Some? then old(audit) + [Line(env, i, r.value.decision, C.NoMatch, "", "")] else old(audit)
    {
      var listed := CheckCaller(env.Pol(i), env.reqs[i].caller);
      if !listed {
        Note(env, i, C.Forbidden, C.NoMatch, "", "");
        return Some(NONE.(decision := C.Forbidden, status := 403));
      }
      if env.Pol(i).rps > 0.0 && !allowed {
        Note(env, i, C.RateLimited, C.NoMatch, "", "");
        return Some(NONE.(decision := C.RateLimited, status := 429));
      }
      return None;
    }

    /** The tail of `Lookup`: the record, the replay counter, the result. */
    method Respond(env: Env, i: nat, c: Choice, counts: bool) returns (r: C.Result)
      requires i < |env.reqs| && (c == FORWARD || (c.hit.Some? && (c.decision == C.Block || c.decision == C.Replay)))
      modifies this
      ensures r == Answer(env, i, c)
      ensures tab == if c.decision == C.Replay && counts
                     then Store.AfterIncrement(old(tab), Store.Key(env.Tool(i), r.hash)) else old(tab)
      ensures audit == old(audit) + [Recorded(env, i, r)] && r.decision == c.decision
    {
      match c.hit
      case None =>
        Note(env, i, C.Forward, C.NoMatch, env.Hash(i), "");
        r := NONE.(hash := env.Hash(i));
      case Some((e, kind)) =>
        Note(env, i, c.decision, kind, env.Hash(i), e.hash);
        if c.decision == C.Block { return C.Result(C.Block, kind, e.hash, 409, ""); }
        if counts { tab := Store.AfterIncrement(tab, Store.Key(env.Tool(i), e.hash)); }
        r := C.Result(C.Replay, kind, e.hash, e.status, RenderReplay(env.Pol(i), env.Tool(i), e));
    }

    /** Only successes of strict and cache tools are kept. */
    method Cache(env: Env, i: nat, now: int, status: int, response: string, putFails: bool) returns (stored: bool)
      requires i < |env.reqs|
      modifies this`tab
      ensures stored <==> env.Pol(i).Coalesces() && Success(status) && env.Analysed(i).Some? && !putFails
                          && env.Tool(i) != "" && env.Hash(i) != ""
      ensures tab == if stored then Cached(env, i, old(tab), now, status, response) else old(tab)
    {
      if env.Pol(i).mode != Strict && env.Pol(i).mode != CacheMode { return false; }
      if status < 200 || status >= 300 { return false; }
      if env.Analysed(i).None? || putFails { return false; }
      var e := BuildEntry(env, i, now, status, response);
      if e.tool == "" || e.hash == "" { return false; }
      tab := tab[Store.Key(e.tool, e.hash) := Store.Stamped(e, now)];
      return true;
    }
  }

  function Cached(env: Env, i: nat, tab: Store.Table, now: int, status: int, response: string): Store.Table
    requires i < |env.reqs|
  {
    Store.AfterPut(tab, now, BuildEntry(env, i, now, status, response))
  }

  // ---- caching and looking up again

  /** Until the time to live is over, an identical call that passes its gates gets the cached
      answer: the same status and, if any was kept, the same bytes; it is blocked instead where
      replays need confirmation. */
  lemma CachedIsReplayed(env: Env, i: nat, j: nat, tab: Store.Table, now: int, later: int,
                         status: int, response: string, found: Option<Search.Match>)
    requires i < |env.reqs| && j < |env.reqs| && env.Tool(j) == env.Tool(i) && env.Hash(j) == env.Hash(i)
    requires env.Pol(i).Coalesces() && env.Analysed(j).Some? && env.Tool(i) != "" && env.Hash(i) != ""
    requires env.Pol(j).AllowsCaller(env.reqs[j].caller)
    ensures var ttl := env.Pol(i).ttl;
      var r := LookedUp(env, j, Cached(env, i, tab, now, status, response), later, true, true, found);
      (ttl == 0 || later - now <= ttl) ==>
        && r.Reply?
        && r.result.hash == env.Hash(i) && r.result.kind == C.Exact
        && (if env.Confirms(j) then r.result.decision == C.Block && r.result.status == 409
            else r.result.decision == C.Replay && r.result.status == status
                 && r.result.body == if response == "" || env.Pol(i).strategy == SynthesizedAck
                                     then env.Pol(i).Acknowledgement(env.Tool(i), env.Hash(i)) else response)
    ensures var ttl := env.Pol(i).ttl;
      ttl != 0 && later - now > ttl ==>
        Store.Lookup(Cached(env, i, tab, now, status, response), later, env.Key(j)) == None
  {
  }
}
