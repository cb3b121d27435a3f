/** The stdio proxy with its store: the client pump looks a request up before it enters the
    critical section, and the child pump writes the cache before it clears the in-flight entry. */
module StdioStore {
  import opened Outcomes
  import opened Policy
  import opened Stdio
  import R = StdioRuns
  import Store

  /** `call(id)` is the request that comes under `id`. */
  datatype Env = Env(cfg: Config, call: Id -> PendingCall)
  {
    function Pol(id: Id): ToolPolicy { cfg.For(call(id).tool) }
    function Key(id: Id): string { Store.Key(call(id).tool, call(id).hash) }

    /** True of every hex digest. */
    ghost predicate NulFreeHashes() { forall id :: Store.NulFree(call(id).hash) }
  }

  /** The client pump handles one request at a time: it is between requests, or has looked one up,
      missed, and not yet dispatched it. */
  datatype Client = Ready | Missed(id: Id)

  /** `seen` are the requests looked up so far, `sent` those written to the child; `written` says
      whether the response in the child pump's hands has been cached. */
  datatype World = World(s: R.State, client: Client, seen: set<Id>, sent: set<Id>, written: bool, tab: Store.Table, now: int)

  datatype Step =
    | Look(id: Id, ok: bool, hit: bool)
    | Dispatch
    | Answer(id: Id)
    | Cache(ok: bool, response: string)
    | Proxy(step: R.Step)
    | Tick(now: int)
    | Compact
    | Forget(key: string)

  function EntryFor(env: Env, id: Id, now: int, response: string): Store.Entry {
    var pol, call := env.Pol(id), env.call(id);
    Store.Entry(call.tool, call.hash, if pol.redactRequest then "" else call.args,
      if pol.strategy == SynthesizedAck then "" else response, 200, now, 0, pol.ttl, [])
  }

  /** A live entry is a hit; a semantic match may be one too. */
  ghost predicate Enabled(env: Env, w: World, step: Step) {
    match step
    case Look(id, ok, hit) =>
      && w.client.Ready? && id !in w.seen && (hit ==> ok && env.Pol(id).Coalesces())
      && (ok && env.Pol(id).Coalesces() && Store.Lookup(w.tab, w.now, env.Key(id)).Some? ==> hit)
    case Dispatch => w.client.Missed? && R.Enabled(w.s, R.Call(w.client.id, env.call(w.client.id)))
    case Answer(id) => R.Enabled(w.s, R.Respond(id))
    case Cache(_, _) => w.s.pump.Caching? && !w.written
    case Proxy(inner) => !inner.Call? && !inner.Respond? && R.Enabled(w.s, inner) && (inner.Cached? ==> w.written)
    case Tick(now) => w.now <= now
    case _ => true
  }

  ghost function Next(env: Env, w: World, step: Step): World
    requires Enabled(env, w, step)
  {
    match step
    case Look(id, ok, hit) =>
      w.(seen := w.seen + {id}, client := if hit then Ready else Missed(id),
         tab := if ok then Store.AfterGet(w.tab, w.now, env.Key(id)) else w.tab)
    case Dispatch =>
      var id := w.client.id;
      w.(s := R.Next(w.s, R.Call(id, env.call(id))), client := Ready,
         sent := if env.call(id).hash in w.s.maps.inflight then w.sent else w.sent + {id})
    case Answer(id) => w.(s := R.Next(w.s, R.Respond(id)), written := false)
    case Cache(ok, response) =>
      var id := w.s.pump.leader;
      w.(written := true,
         tab := if ok && env.Pol(id).Coalesces() then Store.AfterPut(w.tab, w.now, EntryFor(env, id, w.now, response)) else w.tab)
    case Proxy(inner) => w.(s := R.Next(w.s, inner))
    case Tick(now) => w.(now := now)
    case Compact => w.(tab := Store.Live(w.tab, w.now))
    case Forget(key) => w.(tab := w.tab - {key})
  }

  ghost predicate IsRun(env: Env, w: World, steps: seq<Step>, end: World)
    decreases |steps|
  {
    if steps == [] then w == end
    else Enabled(env, w, steps[0]) && IsRun(env, Next(env, w, steps[0]), steps[1..], end)
  }

  ghost predicate IsStart(w: World) {
    w.s == R.START && w.client == Ready && w.seen == {} && w.sent == {} && !w.written && w.tab == map[]
  }

  // ---- what every run keeps

  /** Requests are dispatched after they were looked up, once, and sent to the child unless they are
      queued behind a leader. */
  ghost predicate Fit(w: World) {
    && w.s.asked.Keys <= w.seen && w.s.queued <= w.s.asked.Keys && w.sent == w.s.asked.Keys - w.s.queued
    && (w.client.Missed? ==> w.client.id in w.seen && w.client.id !in w.s.asked)
  }

  lemma NextFit(env: Env, w: World, step: Step)
    requires Fit(w) && Enabled(env, w, step)
    ensures Fit(Next(env, w, step))
  {
  }

  lemma {:induction false} RunFit(env: Env, w: World, steps: seq<Step>, end: World)
    requires Fit(w) && IsRun(env, w, steps, end)
    ensures Fit(end)
    decreases |steps|
  {
    if steps != [] {
      NextFit(env, w, steps[0]);
      RunFit(env, Next(env, w, steps[0]), steps[1..], end);
    }
  }

  /** Over every run: what was sent is what was dispatched and not queued. */
  lemma SentAreLeaders(env: Env, w: World, steps: seq<Step>, end: World)
    requires IsStart(w) && IsRun(env, w, steps, end)
    ensures end.sent == end.s.asked.Keys - end.s.queued
  {
    RunFit(env, w, steps, end);
  }

  lemma {:induction false} ClockMonotone(env: Env, w: World, steps: seq<Step>, end: World)
    requires IsRun(env, w, steps, end)
    ensures w.now <= end.now
    decreases |steps|
  {
    if steps != [] { ClockMonotone(env, Next(env, w, steps[0]), steps[1..], end); }
  }

  // ---- not sent again while the entry lives

  /** The entry under `id`'s key was created at or after `since`. */
  predicate Kept(env: Env, w: World, id: Id, since: int) {
    var k := env.Key(id);
    k in w.tab && w.tab[k].ttl == env.Pol(id).ttl && since <= w.tab[k].createdAt <= w.now
  }

  predicate Within(ttl: int, since: int, now: int) { ttl == 0 || now - since <= ttl }

  lemma CacheKeeps(env: Env, w: World, id: Id, since: int, other: Id, response: string)
    requires env.NulFreeHashes() && Kept(env, w, id, since)
    ensures Kept(env, w.(tab := Store.AfterPut(w.tab, w.now, EntryFor(env, other, w.now, response))), id, since)
  {
    Store.KeyInjectiveByHash(env.call(other).tool, env.call(other).hash, env.call(id).tool, env.call(id).hash);
  }

  lemma NextKeeps(env: Env, w: World, step: Step, id: Id, since: int)
    requires env.NulFreeHashes() && Enabled(env, w, step) && step != Forget(env.Key(id))
    requires Kept(env, w, id, since) && Within(env.Pol(id).ttl, since, w.now)
    ensures Kept(env, Next(env, w, step), id, since)
  {
    if step.Cache? { CacheKeeps(env, w, id, since, w.s.pump.leader, step.response); }
  }

  /** Not looked up yet, or looked up and neither sent nor about to be. */
  predicate NotSending(w: World, id: Id) { id !in w.sent && w.client != Missed(id) }

  lemma NextNotSending(env: Env, w: World, step: Step, id: Id)
    requires Enabled(env, w, step) && NotSending(w, id) && env.Pol(id).Coalesces()
    requires step.Look? && step.id == id ==> step.ok && Store.Lookup(w.tab, w.now, env.Key(id)).Some?
    ensures NotSending(Next(env, w, step), id)
  {
  }

  predicate Undisturbed(env: Env, steps: seq<Step>, id: Id) {
    Look(id, false, false) !in steps && Forget(env.Key(id)) !in steps
  }

  /** While an entry for its key lives, a request that is not about to be dispatched is not sent. */
  lemma {:induction false} NotSentWhileKept(env: Env, w: World, steps: seq<Step>, end: World, id: Id, since: int)
    requires env.NulFreeHashes() && IsRun(env, w, steps, end) && env.Pol(id).Coalesces() && Undisturbed(env, steps, id)
    requires NotSending(w, id) && Kept(env, w, id, since) && Within(env.Pol(id).ttl, since, end.now)
    ensures NotSending(end, id)
    decreases |steps|
  {
    if steps != [] {
      var step := steps[0];
      assert step in steps;
      ClockMonotone(env, w, steps, end);
      NextKeeps(env, w, step, id, since);
      NextNotSending(env, w, step, id);
      NotSentWhileKept(env, Next(env, w, step), steps[1..], end, id, since);
    }
  }

  /** What a cached response leaves under its key: status 200 and the tool's time to live, counted from
      now; the request unless the policy redacts it; the response unless the policy asks for
      acknowledgements. */
  lemma CachedEntryIs(env: Env, w: World, response: string)
    requires Enabled(env, w, Cache(true, response)) && env.Pol(w.s.pump.leader).Coalesces()
    requires env.call(w.s.pump.leader).tool != "" && env.call(w.s.pump.leader).hash != ""
    ensures var call, pol, tab := env.call(w.s.pump.leader), env.Pol(w.s.pump.leader), Next(env, w, Cache(true, response)).tab;
      var k := Store.Key(call.tool, call.hash);
      && k in tab && tab - {k} == w.tab - {k}
      && tab[k].tool == call.tool && tab[k].hash == call.hash && tab[k].status == 200 && tab[k].ttl == pol.ttl
      && tab[k].createdAt == w.now && tab[k].replays == 0
      && tab[k].request == (if pol.redactRequest then "" else call.args)
      && tab[k].response == (if pol.strategy == SynthesizedAck then "" else response)
  {
  }

  // ---- exactly when a duplicate is sent again

  /** The response to `leader`, a request that `id` duplicates, is about to be cached, and `id` has
      not been sent. */
  ghost predicate AboutToCache(env: Env, w: World, leader: Id, id: Id) {
    && Fit(w) && w.s.pump == R.Caching(leader, env.call(leader)) && !w.written && id !in w.sent
    && env.call(id).tool == env.call(leader).tool != "" && env.call(id).hash == env.call(leader).hash != ""
    && env.Pol(id).Coalesces()
  }

  ghost predicate SentLate(env: Env, w: World, id: Id, since: int, steps: seq<Step>, end: World) {
    && IsRun(env, w, steps, end) && id in end.sent && Undisturbed(env, steps, id)
    && Within(env.Pol(id).ttl, since, end.now)
  }

  lemma CachedIsKept(env: Env, w: World, leader: Id, id: Id, response: string)
    requires AboutToCache(env, w, leader, id)
    ensures Kept(env, Next(env, w, Cache(true, response)), id, w.now)
  {
  }

  /** The pump clears the in-flight entry, and the request that was looked up before goes out. */
  lemma LateRun(env: Env, w: World, leader: Id, id: Id, response: string) returns (steps: seq<Step>, end: World)
    requires AboutToCache(env, w, leader, id) && w.client == Missed(id)
    ensures IsRun(env, Next(env, w, Cache(true, response)), steps, end)
    ensures steps == [Proxy(R.Cached), Dispatch] && id in end.sent && end.now == w.now
  {
    var t := Next(env, w, Cache(true, response));
    var cleared := Next(env, t, Proxy(R.Cached));
    assert env.call(id).hash !in cleared.s.maps.inflight;
    end := Next(env, cleared, Dispatch);
    steps := [Proxy(R.Cached), Dispatch];
    assert steps[1..] == [Dispatch] && [Dispatch][1..] == [];
    assert IsRun(env, end, [], end) && IsRun(env, cleared, [Dispatch], end);
  }

  /** When a response is cached, a duplicate can still be sent to the child, while the entry is alive,
      with a working store and without deletes, if and only if the client pump has at that moment
      looked it up, missed, and not yet dispatched it. */
  lemma SentAgainIff(env: Env, w: World, leader: Id, id: Id, response: string)
    requires env.NulFreeHashes() && AboutToCache(env, w, leader, id)
    ensures (exists steps, end :: SentLate(env, Next(env, w, Cache(true, response)), id, w.now, steps, end))
            <==> w.client == Missed(id) && env.Pol(id).ttl >= 0
  {
    var t := Next(env, w, Cache(true, response));
    forall steps, end | SentLate(env, t, id, w.now, steps, end) ensures w.client == Missed(id) && env.Pol(id).ttl >= 0 {
      ClockMonotone(env, t, steps, end);
      CachedIsKept(env, w, leader, id, response);
      if w.client != Missed(id) { NotSentWhileKept(env, t, steps, end, id, w.now); }
    }
    if w.client == Missed(id) && env.Pol(id).ttl >= 0 {
      var steps, end := LateRun(env, w, leader, id, response);
      assert SentLate(env, t, id, w.now, steps, end);
    }
  }

  /** Such a moment is reached from the start: `x` is sent and answered while `y` has been looked up. */
  lemma LateFromStart(env: Env, w: World, x: Id, y: Id) returns (steps: seq<Step>, end: World)
    requires IsStart(w) && x != "" && x != y && env.Pol(x).Coalesces()
    requires env.call(x).tool == env.call(y).tool != "" && env.call(x).hash == env.call(y).hash != ""
    ensures IsRun(env, w, steps, end) && AboutToCache(env, end, x, y) && end.client == Missed(y)
  {
    var w1 := Next(env, w, Look(x, true, false));
    assert w1.tab == map[] && w1.client == Missed(x);
    var w2 := Next(env, w1, Dispatch);
    var w3 := Next(env, w2, Look(y, true, false));
    assert w3.client == Missed(y) && w3.s.maps.pending == map[x := env.call(x)];
    end := Next(env, w3, Answer(x));
    steps := [Look(x, true, false), Dispatch, Look(y, true, false), Answer(x)];
    assert IsRun(env, end, [], end);
    assert IsRun(env, w3, [Answer(x)], end) by { assert [Answer(x)][1..] == []; }
    RunMore(env, w2, Look(y, true, false), [Answer(x)], end);
    RunMore(env, w1, Dispatch, [Look(y, true, false)] + [Answer(x)], end);
    RunMore(env, w, Look(x, true, false), [Dispatch] + ([Look(y, true, false)] + [Answer(x)]), end);
    assert steps == [Look(x, true, false)] + ([Dispatch] + ([Look(y, true, false)] + [Answer(x)]));
    RunFit(env, w, steps, end);
  }

  lemma RunMore(env: Env, w: World, step: Step, steps: seq<Step>, end: World)
    requires Enabled(env, w, step) && IsRun(env, Next(env, w, step), steps, end)
    ensures IsRun(env, w, [step] + steps, end)
  {
    assert ([step] + steps)[1..] == steps;
  }

  /** Nothing is cached for a tool that is neither strict nor cache, nor when the Put fails. */
  lemma NothingCached(env: Env, w: World, ok: bool, response: string)
    requires Enabled(env, w, Cache(ok, response))
    requires !ok || (env.Pol(w.s.pump.leader).mode != Strict && env.Pol(w.s.pump.leader).mode != CacheMode)
    ensures Next(env, w, Cache(ok, response)).tab == w.tab
  {
  }

  /** Any new request may be looked up between two others; it may miss exactly if its read fails, its
      tool is neither strict nor cache, or no live entry is under its key. */
  lemma LookingUp(env: Env, w: World, id: Id)
    requires w.client == Ready && id !in w.seen
    ensures (exists ok :: Enabled(env, w, Look(id, ok, false)))
    ensures Enabled(env, w, Look(id, true, false)) <==>
      (env.Pol(id).mode != Strict && env.Pol(id).mode != CacheMode)
      || env.Key(id) !in w.tab || w.tab[env.Key(id)].Expired(w.now)
  {
    assert Enabled(env, w, Look(id, false, false));
  }
}
