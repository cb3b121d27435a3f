/** `Apply` of internal/pipeline/pipeline.go outside shadow mode: any number of calls, each a
    sequence of atomic steps, over one store, one in-flight table, one audit log. */
module Pipeline {
  import opened Outcomes
  import opened Policy
  import C = Coalescing
  import Store
  import Search

  datatype Analysis = Analysis(hash: string, intent: string)

  datatype Request = Request(tool: string, caller: string, body: string)

  /** The parts of the surroundings that do not change.  `analyse` fails on a body that is not
      a JSON object; `embed` is missing when no embedder is configured and fails on some texts. */
  datatype Env = Env(
    cfg: Config,
    reqs: seq<Request>,
    analyse: (string, ToolPolicy) -> Option<Analysis>,
    embed: Option<string -> Option<seq<real>>>,
    sqrt: real -> real)
  {
    function Tool(i: nat): string requires i < |reqs| { reqs[i].tool }
    function Pol(i: nat): ToolPolicy requires i < |reqs| { cfg.For(reqs[i].tool) }
    function Analysed(i: nat): Option<Analysis> requires i < |reqs| { analyse(reqs[i].body, Pol(i)) }
    function Hash(i: nat): string requires i < |reqs| { if Analysed(i).Some? then Analysed(i).value.hash else "" }
    function Intent(i: nat): string requires i < |reqs| { if Analysed(i).Some? then Analysed(i).value.intent else "" }
    function Key(i: nat): string requires i < |reqs| { Store.Key(Tool(i), Hash(i)) }

    predicate Confirms(i: nat) requires i < |reqs| { Pol(i).mode == Strict && Pol(i).confirmReplay }

    function Query(i: nat): Option<seq<real>>
      requires i < |reqs|
    {
      if embed.Some? && Pol(i).threshold > 0.0 && Intent(i) != "" then embed.value(Intent(i)) else None
    }
  }

  // ---- one call

  datatype Outcome = Delivered(status: int, body: string) | Errored(status: int, body: string, err: string) | Panic(msg: string)
  datatype PutOutcome = Written | PutFailed | PutPanicked(msg: string)

  datatype Exit =
    | Rejected                                    // the body is no JSON object
    | Refused(decision: C.Decision)               // forbidden or rate limited
    | Blocked(entry: Store.Entry, kind: C.Kind)
    | Replayed(entry: Store.Entry, kind: C.Kind)
    | Direct(ending: C.Ending)                    // forwarded without a handle
    | Led(h: nat, ending: C.Ending)
    | Joined(h: nat, verdict: C.Verdict)

  datatype Pc =
    | Arrived
    | Reading
    | Searching
    | Hitting(entry: Store.Entry, kind: C.Kind)
    | Counting(entry: Store.Entry, kind: C.Kind)
    | Missed
    | Elected(h: nat)
    | Forwarding(handle: Option<nat>)
    | Storing(h: nat, status: int, body: string)
    | Publishing(h: nat, ending: C.Ending)
    | Removing(h: nat, ending: C.Ending)
    | Closing(h: nat, ending: C.Ending)
    | Waiting(h: nat)
    | Waking(h: nat, verdict: C.Verdict)
    | Done(exit: Exit)

  datatype Act =
    | Gate(allowed: bool)                                         // policy, caller list, rate limiter, analyse
    | Read(ok: bool)                                              // the exact lookup
    | Search(failed: bool, found: Option<Search.Match>)           // the semantic lookup
    | Note                                                        // audit of a replay or a block
    | Count(ok: bool)                                             // the replay counter
    | Acquire
    | Begin                                                       // audit of a forward, upstream called
    | Return(outcome: Outcome)                                    // upstream answers
    | Put(put: PutOutcome)
    | Publish
    | Remove
    | Close
    | Wake
    | Cancel
    | Report                                                      // audit of a waiter

  // ---- what the calls share

  /** `call` says which call wrote the record. */
  datatype Record = Record(call: nat, tool: string, mode: Mode, decision: C.Decision, kind: C.Kind, hash: string)
  datatype Delivery = Delivery(tool: string, status: int, body: string)

  /** `log` and `invoked` record the past: what upstream delivered without an error, and the
      calls it was invoked for. */
  datatype Shared = Shared(
    table: C.Table, tab: Store.Table, now: int,
    audit: seq<Record>, log: seq<Delivery>, invoked: seq<nat>)

  predicate Success(status: int) { 200 <= status < 300 }

  /** `buildEntry` with the clock read at the same moment as the Put. */
  function BuildEntry(env: Env, i: nat, now: int, status: int, response: string): Store.Entry
    requires i < |env.reqs|
  {
    var pol := env.Pol(i);
    Store.Entry(env.Tool(i), env.Hash(i),
      if pol.redactRequest then "" else env.reqs[i].body,
      if pol.strategy == SynthesizedAck then "" else response,
      status, now, 0, pol.ttl,
      if env.Query(i).Some? then env.Query(i).value else [])
  }

  function RenderReplay(pol: ToolPolicy, tool: string, e: Store.Entry): string {
    if e.response != "" then e.response else pol.Acknowledgement(tool, e.hash)
  }

  /** What the caller of a replayed call receives. */
  function ReplayResult(env: Env, i: nat, e: Store.Entry, kind: C.Kind): C.Result
    requires i < |env.reqs|
  {
    C.Result(C.Replay, kind, e.hash, e.status, RenderReplay(env.Pol(i), env.Tool(i), e))
  }

  function ForwardResult(env: Env, i: nat, status: int, body: string): C.Result
    requires i < |env.reqs|
  {
    C.Result(C.Forward, C.NoMatch, if env.Pol(i).mode == Off then "" else env.Hash(i), status, body)
  }

  function EndingOf(env: Env, i: nat, o: Outcome): C.Ending
    requires i < |env.reqs|
  {
    match o
    case Delivered(status, body) => C.Fresh(ForwardResult(env, i, status, body))
    case Errored(status, body, err) => C.Failed(ForwardResult(env, i, status, body), err)
    case Panic(msg) => C.Panicked(msg)
  }

  function Line(env: Env, i: nat, d: C.Decision, kind: C.Kind, fingerprint: string, entryHash: string): Record
    requires i < |env.reqs|
  {
    Record(i, env.Tool(i), env.Pol(i).mode, d, kind, if entryHash == "" then fingerprint else entryHash)
  }

  function HitLine(env: Env, i: nat, d: C.Decision, e: Store.Entry, kind: C.Kind): Record
    requires i < |env.reqs|
  {
    Line(env, i, d, kind, env.Hash(i), e.hash)
  }

  function ForwardLine(env: Env, i: nat): Record
    requires i < |env.reqs|
  {
    Line(env, i, C.Forward, C.NoMatch, env.Hash(i), "")
  }

  function WaiterLine(env: Env, i: nat, v: C.Verdict): Record
    requires i < |env.reqs|
  {
    if v.Shared? then Line(env, i, v.result.decision, v.result.kind, env.Hash(i), env.Hash(i))
    else Line(env, i, C.Forward, C.NoMatch, env.Hash(i), env.Hash(i))
  }

  // ---- the steps of one call

  /** The handle a call refers to, if any. */
  function HandleOf(pc: Pc): Option<nat> {
    match pc
    case Elected(h) => Some(h)
    case Forwarding(handle) => handle
    case Storing(h, _, _) => Some(h)
    case Publishing(h, _) => Some(h)
    case Removing(h, _) => Some(h)
    case Closing(h, _) => Some(h)
    case Waiting(h) => Some(h)
    case Waking(h, _) => Some(h)
    case Done(Led(h, _)) => Some(h)
    case Done(Joined(h, _)) => Some(h)
    case _ => None
  }

  predicate InRange(pc: Pc, g: Shared) {
    HandleOf(pc).Some? ==> HandleOf(pc).value < |g.table.handles|
  }

  ghost predicate Possible(env: Env, i: nat, pc: Pc, g: Shared, act: Act)
    requires i < |env.reqs| && InRange(pc, g)
  {
    match act
    case Gate(_) => pc.Arrived?
    case Read(_) => pc.Reading?
    case Search(failed, found) =>
      && pc.Searching?
      && (if failed || env.Query(i).None? then found == None
          else Search.IsBest(Store.Scanned(g.tab, g.now, env.Tool(i)), env.sqrt, env.Query(i).value, env.Pol(i).threshold, found))
    case Note => pc.Hitting?
    case Count(_) => pc.Counting?
    case Acquire => pc.Missed? && env.Pol(i).Coalesces()
    case Begin => pc.Elected? || (pc.Missed? && !env.Pol(i).Coalesces())
    case Return(_) => pc.Forwarding?
    case Put(_) => pc.Storing?
    case Publish => pc.Publishing?
    case Remove => pc.Removing?
    case Close => pc.Closing?
    case Wake => pc.Waiting? && g.table.handles[pc.h].closes > 0
    case Cancel => pc.Waiting?
    case Report => pc.Waking?
  }

  function GateStep(env: Env, i: nat, g: Shared, allowed: bool): (Pc, Shared)
    requires i < |env.reqs|
  {
    var pol := env.Pol(i);
    if pol.mode == Off then (Forwarding(None), g.(invoked := g.invoked + [i]))
    else if !pol.AllowsCaller(env.reqs[i].caller) then
      (Done(Refused(C.Forbidden)), g.(audit := g.audit + [Line(env, i, C.Forbidden, C.NoMatch, "", "")]))
    else if pol.rps > 0.0 && !allowed then
      (Done(Refused(C.RateLimited)), g.(audit := g.audit + [Line(env, i, C.RateLimited, C.NoMatch, "", "")]))
    else if env.Analysed(i).None? then (Done(Rejected), g)
    else (Reading, g)
  }

  /** A hit is blocked, with its audit record, or on its way to be replayed. */
  function HitStep(env: Env, i: nat, g: Shared, e: Store.Entry, kind: C.Kind): (Pc, Shared)
    requires i < |env.reqs|
  {
    if env.Confirms(i) then (Done(Blocked(e, kind)), g.(audit := g.audit + [HitLine(env, i, C.Block, e, kind)]))
    else (Hitting(e, kind), g)
  }

  function ReadStep(env: Env, i: nat, g: Shared, ok: bool): (Pc, Shared)
    requires i < |env.reqs|
  {
    var pol := env.Pol(i);
    var g' := if ok then g.(tab := Store.AfterGet(g.tab, g.now, env.Key(i))) else g;
    if pol.mode == LogOnly then (Missed, g')
    else if !pol.Coalesces() then (Missed, g)
    else if !ok then (Missed, g)
    else match Store.Lookup(g.tab, g.now, env.Key(i))
      case Some(e) => HitStep(env, i, g', e, C.Exact)
      case None => (if env.embed.Some? && pol.threshold > 0.0 && env.Intent(i) != "" then Searching else Missed, g')
  }

  function ReturnStep(env: Env, i: nat, g: Shared, handle: Option<nat>, o: Outcome): (Pc, Shared)
    requires i < |env.reqs|
  {
    var g' := if o.Delivered? then g.(log := g.log + [Delivery(env.Tool(i), o.status, o.body)]) else g;
    match handle
    case None => (Done(Direct(EndingOf(env, i, o))), g')
    case Some(h) =>
      if o.Delivered? && Success(o.status) then (Storing(h, o.status, o.body), g')
      else (Publishing(h, EndingOf(env, i, o)), g')
  }

  function PutStep(env: Env, i: nat, g: Shared, h: nat, status: int, body: string, put: PutOutcome): (Pc, Shared)
    requires i < |env.reqs|
  {
    match put
    case Written =>
      (Publishing(h, C.Fresh(ForwardResult(env, i, status, body))),
       g.(tab := Store.AfterPut(g.tab, g.now, BuildEntry(env, i, g.now, status, body))))
    case PutFailed => (Publishing(h, C.Fresh(ForwardResult(env, i, status, body))), g)
    case PutPanicked(msg) => (Publishing(h, C.Panicked(msg)), g)
  }

  function AcquireStep(env: Env, i: nat, g: Shared): (Pc, Shared)
    requires i < |env.reqs|
  {
    var hash := env.Hash(i);
    (if hash in g.table.inflight then Waiting(g.table.inflight[hash]) else Elected(|g.table.handles|),
     g.(table := C.Acquired(g.table, hash, i)))
  }

  ghost function Perform(env: Env, i: nat, pc: Pc, g: Shared, act: Act): (Pc, Shared)
    requires i < |env.reqs| && InRange(pc, g) && Possible(env, i, pc, g, act)
  {
    match act
    case Gate(allowed) => GateStep(env, i, g, allowed)
    case Read(ok) => ReadStep(env, i, g, ok)
    case Search(_, found) =>
      if found.Some? then HitStep(env, i, g, found.value.entry, C.Semantic) else (Missed, g)
    case Note => (Counting(pc.entry, pc.kind), g.(audit := g.audit + [HitLine(env, i, C.Replay, pc.entry, pc.kind)]))
    case Count(ok) =>
      (Done(Replayed(pc.entry, pc.kind)),
       if ok then g.(tab := Store.AfterIncrement(g.tab, Store.Key(env.Tool(i), pc.entry.hash))) else g)
    case Acquire => AcquireStep(env, i, g)
    case Begin =>
      (Forwarding(HandleOf(pc)), g.(audit := g.audit + [ForwardLine(env, i)], invoked := g.invoked + [i]))
    case Return(o) => ReturnStep(env, i, g, pc.handle, o)
    case Put(put) => PutStep(env, i, g, pc.h, pc.status, pc.body, put)
    case Publish => (Removing(pc.h, pc.ending), g.(table := C.Published(g.table, pc.h, pc.ending)))
    case Remove => (Closing(pc.h, pc.ending), g.(table := C.Removed(g.table, env.Hash(i), pc.h)))
    case Close => (Done(Led(pc.h, pc.ending)), g.(table := C.Closed(g.table, pc.h)))
    case Wake => (Waking(pc.h, C.ReadHandle(g.table.handles[pc.h])), g)
    case Cancel => (Waking(pc.h, C.Verdict.Cancelled), g)
    case Report => (Done(Joined(pc.h, pc.verdict)), g.(audit := g.audit + [WaiterLine(env, i, pc.verdict)]))
  }

  // ---- all calls together

  datatype State = State(pcs: seq<Pc>, shared: Shared)

  /** Besides the calls, time passes, the store is compacted, and an administrator deletes. */
  datatype Step =
    | Call(i: nat, act: Act)
    | Tick(now: int)
    | Compact
    | Forget(key: string)

  ghost predicate CanStep(env: Env, s: State, step: Step) {
    match step
    case Call(i, act) =>
      && i < |env.reqs| == |s.pcs| && InRange(s.pcs[i], s.shared)
      && Possible(env, i, s.pcs[i], s.shared, act)
    case Tick(now) => s.shared.now <= now
    case _ => true
  }

  ghost function Next(env: Env, s: State, step: Step): State
    requires CanStep(env, s, step)
  {
    match step
    case Call(i, act) =>
      var (pc, g) := Perform(env, i, s.pcs[i], s.shared, act);
      State(s.pcs[i := pc], g)
    case Tick(now) => s.(shared := s.shared.(now := now))
    case Compact => s.(shared := s.shared.(tab := Store.Live(s.shared.tab, s.shared.now)))
    case Forget(key) => s.(shared := s.shared.(tab := s.shared.tab - {key}))
  }

  ghost predicate IsRun(env: Env, s: State, steps: seq<Step>, end: State)
    decreases |steps|
  {
    if steps == [] then s == end
    else CanStep(env, s, steps[0]) && IsRun(env, Next(env, s, steps[0]), steps[1..], end)
  }

  ghost predicate IsStart(env: Env, s: State) {
    && |s.pcs| == |env.reqs|
    && (forall i :: 0 <= i < |s.pcs| ==> s.pcs[i] == Arrived)
    && s.shared.table == C.Table(map[], []) && s.shared.tab == map[]
    && s.shared.audit == [] && s.shared.log == [] && s.shared.invoked == []
  }
}
