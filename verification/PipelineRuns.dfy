/** Every interleaving of concurrent calls: the leader and waiter protocol is followed, a
    forward follows a miss, replays come from upstream, and the audit log balances. */
module PipelineRuns {
  import opened Outcomes
  import opened KeyOrder
  import opened Policy
  import opened Pipeline
  import C = Coalescing
  import Store
  import Search

  // ---- the calls follow the leader and waiter protocol

  function RoleOf(pc: Pc): C.Role {
    match pc
    case Elected(h) => C.Leading(h)
    case Forwarding(Some(h)) => C.Leading(h)
    case Storing(h, _, _) => C.Leading(h)
    case Publishing(h, _) => C.Leading(h)
    case Removing(h, ending) => C.Finished(h, ending)
    case Closing(h, ending) => C.Leaving(h, ending)
    case Done(Led(h, ending)) => C.Released(h, ending)
    case Waiting(h) => C.Waiting(h)
    case Waking(h, verdict) => C.Woken(h, verdict)
    case Done(Joined(h, verdict)) => C.Woken(h, verdict)
    case _ => C.Outside
  }

  function Roles(pcs: seq<Pc>): (r: seq<C.Role>)
    ensures |r| == |pcs|
  {
    seq(|pcs|, i requires 0 <= i < |pcs| => RoleOf(pcs[i]))
  }

  function Hashes(env: Env): (r: seq<string>)
    ensures |r| == |env.reqs|
  {
    seq(|env.reqs|, i requires 0 <= i < |env.reqs| => env.Hash(i))
  }

  function Protocol(env: Env, s: State): C.State {
    C.State(Hashes(env), Roles(s.pcs), s.shared.table)
  }

  /** The protocol step a call takes, if the act is one. */
  function ProtocolStep(i: nat, pc: Pc, act: Act): Option<C.Step> {
    match act
    case Acquire => Some(C.Acquire(i))
    case Publish => if pc.Publishing? then Some(C.Publish(i, pc.ending)) else None
    case Remove => Some(C.Remove(i))
    case Close => Some(C.Close(i))
    case Wake => Some(C.Wake(i))
    case Cancel => Some(C.Cancel(i))
    case _ => None
  }

  predicate BeforeElection(act: Act) { act.Gate? || act.Read? || act.Search? || act.Note? || act.Count? }

  lemma StutterBefore(env: Env, i: nat, pc: Pc, g: Shared, act: Act)
    requires i < |env.reqs| && InRange(pc, g) && Possible(env, i, pc, g, act) && BeforeElection(act)
    ensures var (pc', g') := Perform(env, i, pc, g, act);
      g'.table == g.table && RoleOf(pc') == RoleOf(pc) == C.Outside
  {
  }

  lemma StutterAfter(env: Env, i: nat, pc: Pc, g: Shared, act: Act)
    requires i < |env.reqs| && InRange(pc, g) && Possible(env, i, pc, g, act)
    requires act.Begin? || act.Return? || act.Put? || act.Report?
    ensures var (pc', g') := Perform(env, i, pc, g, act); g'.table == g.table && RoleOf(pc') == RoleOf(pc)
  {
  }

  /** Acts outside the protocol leave the table and the call's role alone. */
  lemma StutterAct(env: Env, i: nat, pc: Pc, g: Shared, act: Act)
    requires i < |env.reqs| && InRange(pc, g) && Possible(env, i, pc, g, act) && ProtocolStep(i, pc, act).None?
    ensures var (pc', g') := Perform(env, i, pc, g, act); g'.table == g.table && RoleOf(pc') == RoleOf(pc)
  {
    if BeforeElection(act) { StutterBefore(env, i, pc, g, act); } else { StutterAfter(env, i, pc, g, act); }
  }

  lemma RolesUpdate(pcs: seq<Pc>, i: nat, pc: Pc)
    requires i < |pcs|
    ensures Roles(pcs[i := pc]) == Roles(pcs)[i := RoleOf(pc)]
  {
  }

  lemma ProtocolAct(env: Env, s: State, i: nat, act: Act, p: C.Step)
    requires CanStep(env, s, Call(i, act)) && C.WellFormed(Protocol(env, s)) && ProtocolStep(i, s.pcs[i], act) == Some(p)
    ensures C.Enabled(Protocol(env, s), p)
    ensures var t, (pc', g') := C.Next(Protocol(env, s), p), Perform(env, i, s.pcs[i], s.shared, act);
      t == C.State(Hashes(env), Roles(s.pcs)[i := RoleOf(pc')], g'.table)
  {
  }

  /** Each step of the pipeline is a step of the protocol or does not concern it. */
  lemma Refines(env: Env, s: State, step: Step)
    requires CanStep(env, s, step) && |s.pcs| == |env.reqs| && C.WellFormed(Protocol(env, s))
    ensures var p := if step.Call? then ProtocolStep(step.i, s.pcs[step.i], step.act) else None;
      if p.None? then Protocol(env, Next(env, s, step)) == Protocol(env, s)
      else C.Enabled(Protocol(env, s), p.value) && Protocol(env, Next(env, s, step)) == C.Next(Protocol(env, s), p.value)
  {
    if step.Call? {
      var i, pc := step.i, s.pcs[step.i];
      RolesUpdate(s.pcs, i, Perform(env, i, pc, s.shared, step.act).0);
      match ProtocolStep(i, pc, step.act)
      case None =>
        StutterAct(env, i, pc, s.shared, step.act);
        assert Roles(s.pcs)[i := RoleOf(pc)] == Roles(s.pcs);
      case Some(p) => ProtocolAct(env, s, i, step.act, p);
    }
  }

  lemma NextProtocol(env: Env, s: State, step: Step)
    requires CanStep(env, s, step) && |s.pcs| == |env.reqs| && C.Inv(Protocol(env, s))
    ensures |Next(env, s, step).pcs| == |env.reqs| && C.Inv(Protocol(env, Next(env, s, step)))
  {
    C.InvWellFormed(Protocol(env, s));
    Refines(env, s, step);
    var p := if step.Call? then ProtocolStep(step.i, s.pcs[step.i], step.act) else None;
    if p.Some? { C.NextInv(Protocol(env, s), p.value); }
  }

  // ---- where replays come from

  /** The delivery an entry records: its response is that body, unless the tool's policy asks for
      acknowledgements. */
  predicate From(env: Env, d: Delivery, e: Store.Entry) {
    && d.tool == e.tool && d.status == e.status
    && e.response == if env.cfg.For(e.tool).strategy == SynthesizedAck then "" else d.body
  }

  /** The entry was written for call `j`: its request, unless the policy withholds it, and its
      embedded intent, if there is one. */
  predicate WrittenFor(env: Env, j: nat, e: Store.Entry)
    requires j < |env.reqs|
  {
    && env.Tool(j) == e.tool && env.Hash(j) == e.hash
    && e.request == (if env.cfg.For(e.tool).redactRequest then "" else env.reqs[j].body)
    && e.embedding == if env.Query(j).Some? then env.Query(j).value else []
  }

  /** The entry was written for some call and records a success that upstream reported for its tool. */
  ghost predicate Sourced(env: Env, log: seq<Delivery>, e: Store.Entry) {
    && Success(e.status)
    && (exists d :: d in log && From(env, d, e))
    && (exists j :: 0 <= j < |env.reqs| && WrittenFor(env, j, e))
  }

  ghost predicate EntryOk(env: Env, log: seq<Delivery>, k: string, e: Store.Entry) {
    k == Store.Key(e.tool, e.hash) && e.ttl == env.cfg.For(e.tool).ttl && Sourced(env, log, e)
  }

  ghost predicate StoreOk(env: Env, g: Shared) {
    forall k :: k in g.tab ==> EntryOk(env, g.log, k, g.tab[k])
  }

  /** A replayed entry lies under the call's own key, or under its tool's prefix and is similar
      enough.  What this says about the entry's tool is a matter of NULs in names
      (`PipelineLaws.HitIsOwnTool`). */
  ghost predicate HitOk(env: Env, i: nat, log: seq<Delivery>, e: Store.Entry, kind: C.Kind)
    requires i < |env.reqs|
  {
    && Sourced(env, log, e)
    && match kind
       case Exact => Store.Key(e.tool, e.hash) == env.Key(i)
       case Semantic => HasPrefix(Store.Key(e.tool, e.hash), Store.Prefix(env.Tool(i))) && Similar(env, i, e)
       case _ => false
  }

  predicate Similar(env: Env, i: nat, e: Store.Entry)
    requires i < |env.reqs|
  {
    env.Query(i).Some? && Search.Qualifies(env.sqrt, env.Query(i).value, env.Pol(i).threshold, e)
  }

  predicate EndingOk(env: Env, i: nat, log: seq<Delivery>, ending: C.Ending)
    requires i < |env.reqs|
  {
    ending.Fresh? ==>
      && ending.result == ForwardResult(env, i, ending.result.status, ending.result.body)
      && Delivery(env.Tool(i), ending.result.status, ending.result.body) in log
  }

  predicate VerdictOk(v: C.Verdict) {
    v.Shared? ==> v.result.decision == C.Replay && v.result.kind == C.Coalesced
  }

  /** What each stage of a call says about its policy and its past. */
  ghost predicate PcOk(env: Env, i: nat, pc: Pc, log: seq<Delivery>)
    requires i < |env.reqs|
  {
    var pol := env.Pol(i);
    match pc
    case Arrived => true
    case Reading => pol.mode != Off && env.Analysed(i).Some?
    case Searching => pol.Coalesces() && env.Analysed(i).Some?
    case Hitting(e, kind) => pol.Coalesces() && !env.Confirms(i) && HitOk(env, i, log, e, kind)
    case Counting(e, kind) => pol.Coalesces() && !env.Confirms(i) && HitOk(env, i, log, e, kind)
    case Missed => pol.mode != Off && env.Analysed(i).Some?
    case Elected(_) => pol.Coalesces()
    case Forwarding(handle) => handle.Some? <==> pol.Coalesces()
    case Storing(_, status, body) => pol.Coalesces() && Success(status) && Delivery(env.Tool(i), status, body) in log
    case Publishing(_, ending) => pol.Coalesces() && EndingOk(env, i, log, ending)
    case Removing(_, ending) => pol.Coalesces() && EndingOk(env, i, log, ending)
    case Closing(_, ending) => pol.Coalesces() && EndingOk(env, i, log, ending)
    case Waiting(_) => pol.Coalesces()
    case Waking(_, verdict) => pol.Coalesces() && VerdictOk(verdict)
    case Done(exit) => ExitOk(env, i, exit, log)
  }

  ghost predicate ExitOk(env: Env, i: nat, exit: Exit, log: seq<Delivery>)
    requires i < |env.reqs|
  {
    var pol := env.Pol(i);
    match exit
    case Rejected => pol.mode != Off && env.Analysed(i).None?
    case Refused(d) =>
      pol.mode != Off && if pol.AllowsCaller(env.reqs[i].caller) then d == C.RateLimited && pol.rps > 0.0 else d == C.Forbidden
    case Blocked(e, kind) => env.Confirms(i) && HitOk(env, i, log, e, kind)
    case Replayed(e, kind) => pol.Coalesces() && !env.Confirms(i) && HitOk(env, i, log, e, kind)
    case Direct(ending) => !pol.Coalesces() && EndingOk(env, i, log, ending)
    case Led(_, ending) => pol.Coalesces() && EndingOk(env, i, log, ending)
    case Joined(_, verdict) => pol.Coalesces() && VerdictOk(verdict)
  }

  predicate Extends(log: seq<Delivery>, log': seq<Delivery>) {
    forall d :: d in log ==> d in log'
  }

  lemma PcOkGrows(env: Env, i: nat, pc: Pc, log: seq<Delivery>, log': seq<Delivery>)
    requires i < |env.reqs| && PcOk(env, i, pc, log) && Extends(log, log')
    ensures PcOk(env, i, pc, log')
  {
  }

  lemma ActGrows(env: Env, i: nat, pc: Pc, g: Shared, act: Act)
    requires i < |env.reqs| && InRange(pc, g) && Possible(env, i, pc, g, act)
    ensures Extends(g.log, Perform(env, i, pc, g, act).1.log)
  {
  }

  /** What the exact lookup finds lies under the call's key. */
  lemma LookupOk(env: Env, i: nat, g: Shared)
    requires i < |env.reqs| && StoreOk(env, g)
    ensures var r := Store.Lookup(g.tab, g.now, env.Key(i));
      r.Some? ==> HitOk(env, i, g.log, r.value, C.Exact)
  {
    var r := Store.Lookup(g.tab, g.now, env.Key(i));
    if r.Some? { assert EntryOk(env, g.log, env.Key(i), r.value); }
  }

  /** What the semantic search finds lies under the tool's prefix and reaches the threshold. */
  lemma FoundOk(env: Env, i: nat, g: Shared, m: Search.Match)
    requires i < |env.reqs| && StoreOk(env, g) && env.Query(i).Some?
    requires Search.IsBest(Store.Scanned(g.tab, g.now, env.Tool(i)), env.sqrt, env.Query(i).value, env.Pol(i).threshold, Some(m))
    ensures HitOk(env, i, g.log, m.entry, C.Semantic)
  {
    var entries := Store.Scanned(g.tab, g.now, env.Tool(i));
    var k :| k in entries && entries[k] == m.entry;
    assert EntryOk(env, g.log, k, g.tab[k]);
  }

  lemma TablePc(env: Env, i: nat, pc: Pc, g: Shared, act: Act)
    requires i < |env.reqs| && InRange(pc, g) && Possible(env, i, pc, g, act) && OnTable(act)
    requires PcOk(env, i, pc, g.log)
    ensures var (pc', g') := Perform(env, i, pc, g, act); PcOk(env, i, pc', g.log) && g'.log == g.log
  {
  }

  lemma ActPc(env: Env, i: nat, pc: Pc, g: Shared, act: Act)
    requires i < |env.reqs| && InRange(pc, g) && Possible(env, i, pc, g, act)
    requires StoreOk(env, g) && PcOk(env, i, pc, g.log)
    ensures var (pc', g') := Perform(env, i, pc, g, act); PcOk(env, i, pc', g'.log)
  {
    if OnTable(act) {
      TablePc(env, i, pc, g, act);
    } else if act.Gate? {
      GatePc(env, i, g, act.allowed);
    } else if act.Read? {
      ReadPc(env, i, g, act.ok);
    } else if act.Search? {
      if act.found.Some? { FoundOk(env, i, g, act.found.value); }
    } else if act.Return? {
      ReturnPc(env, i, g, pc.handle, act.outcome);
    } else if act.Put? {
      PutPc(env, i, g, pc.h, pc.status, pc.body, act.put);
    }
  }

  lemma GatePc(env: Env, i: nat, g: Shared, allowed: bool)
    requires i < |env.reqs|
    ensures var (pc', g') := GateStep(env, i, g, allowed); PcOk(env, i, pc', g'.log)
  {
  }

  lemma PutPc(env: Env, i: nat, g: Shared, h: nat, status: int, body: string, put: PutOutcome)
    requires i < |env.reqs| && PcOk(env, i, Storing(h, status, body), g.log)
    ensures var (pc', g') := PutStep(env, i, g, h, status, body, put); PcOk(env, i, pc', g'.log)
  {
  }

  lemma ReadPc(env: Env, i: nat, g: Shared, ok: bool)
    requires i < |env.reqs| && StoreOk(env, g) && PcOk(env, i, Reading, g.log)
    ensures var (pc', g') := ReadStep(env, i, g, ok); PcOk(env, i, pc', g'.log)
  {
    LookupOk(env, i, g);
  }

  lemma ReturnPc(env: Env, i: nat, g: Shared, handle: Option<nat>, o: Outcome)
    requires i < |env.reqs| && PcOk(env, i, Forwarding(handle), g.log)
    ensures var (pc', g') := ReturnStep(env, i, g, handle, o); PcOk(env, i, pc', g'.log)
  {
  }

  lemma PutStoreOk(env: Env, i: nat, g: Shared, status: int, body: string)
    requires i < |env.reqs| && StoreOk(env, g)
    requires Success(status) && Delivery(env.Tool(i), status, body) in g.log
    ensures StoreOk(env, g.(tab := Store.AfterPut(g.tab, g.now, BuildEntry(env, i, g.now, status, body))))
  {
    var e := BuildEntry(env, i, g.now, status, body);
    var f := Store.Stamped(e, g.now);
    assert From(env, Delivery(env.Tool(i), status, body), f);
    assert WrittenFor(env, i, f);
    assert Sourced(env, g.log, f);
  }

  /** The other acts neither add to the store nor take from the log. */
  lemma ActShrinks(env: Env, i: nat, pc: Pc, g: Shared, act: Act)
    requires i < |env.reqs| && InRange(pc, g) && Possible(env, i, pc, g, act) && !OnStore(act)
    ensures var g' := Perform(env, i, pc, g, act).1;
      (forall k :: k in g'.tab ==> k in g.tab && g'.tab[k] == g.tab[k]) && Extends(g.log, g'.log)
  {
  }

  lemma ActStore(env: Env, i: nat, pc: Pc, g: Shared, act: Act)
    requires i < |env.reqs| && InRange(pc, g) && Possible(env, i, pc, g, act)
    requires StoreOk(env, g) && PcOk(env, i, pc, g.log)
    ensures StoreOk(env, Perform(env, i, pc, g, act).1)
  {
    if act.Put? {
      if act.put.Written? { PutStoreOk(env, i, g, pc.status, pc.body); }
    } else if act.Count? {
      CountStoreOk(env, g, Store.Key(env.Tool(i), pc.entry.hash));
    } else {
      ActShrinks(env, i, pc, g, act);
      ShrunkStoreOk(env, g, Perform(env, i, pc, g, act).1);
    }
  }

  lemma CountedIsSourced(env: Env, log: seq<Delivery>, e: Store.Entry, n: nat)
    requires Sourced(env, log, e)
    ensures Sourced(env, log, e.(replays := n))
  {
    var d :| d in log && From(env, d, e);
    assert From(env, d, e.(replays := n));
    var j :| 0 <= j < |env.reqs| && WrittenFor(env, j, e);
    assert WrittenFor(env, j, e.(replays := n));
  }

  lemma CountStoreOk(env: Env, g: Shared, k: string)
    requires StoreOk(env, g)
    ensures StoreOk(env, g.(tab := Store.AfterIncrement(g.tab, k)))
  {
    if k in g.tab {
      assert EntryOk(env, g.log, k, g.tab[k]);
      CountedIsSourced(env, g.log, g.tab[k], g.tab[k].replays + 1);
    }
  }

  lemma ShrunkStoreOk(env: Env, g: Shared, g': Shared)
    requires StoreOk(env, g) && Extends(g.log, g'.log)
    requires forall k :: k in g'.tab ==> k in g.tab && g'.tab[k] == g.tab[k]
    ensures StoreOk(env, g')
  {
    forall k | k in g'.tab ensures EntryOk(env, g'.log, k, g'.tab[k]) {
      assert EntryOk(env, g.log, k, g.tab[k]);
    }
  }

  // ---- the books

  /** The records a call has written by the time it stands at `pc`. */
  function Wrote(env: Env, i: nat, pc: Pc): (r: seq<Record>)
    requires i < |env.reqs|
  {
    match pc
    case Counting(e, kind) => [HitLine(env, i, C.Replay, e, kind)]
    case Forwarding(_) => ForwardLines(env, i)
    case Storing(_, _, _) => ForwardLines(env, i)
    case Publishing(_, _) => ForwardLines(env, i)
    case Removing(_, _) => ForwardLines(env, i)
    case Closing(_, _) => ForwardLines(env, i)
    case Done(exit) =>
      (match exit
       case Rejected => []
       case Refused(d) => [Line(env, i, d, C.NoMatch, "", "")]
       case Blocked(e, kind) => [HitLine(env, i, C.Block, e, kind)]
       case Replayed(e, kind) => [HitLine(env, i, C.Replay, e, kind)]
       case Direct(_) => ForwardLines(env, i)
       case Led(_, _) => ForwardLines(env, i)
       case Joined(_, v) => [WaiterLine(env, i, v)])
    case _ => []
  }

  /** Calls in off mode leave no record. */
  function ForwardLines(env: Env, i: nat): seq<Record>
    requires i < |env.reqs|
  {
    if env.Pol(i).mode == Off then [] else [ForwardLine(env, i)]
  }

  /** How often upstream has been invoked for a call standing at `pc`. */
  function Invocations(pc: Pc): nat {
    if pc.Forwarding? || pc.Storing? || pc.Publishing? || pc.Removing? || pc.Closing?
       || (pc.Done? && (pc.exit.Direct? || pc.exit.Led?)) then 1 else 0
  }

  function Of(audit: seq<Record>, i: nat): seq<Record> {
    if audit == [] then []
    else if audit[|audit| - 1].call == i then Of(audit[..|audit| - 1], i) + [audit[|audit| - 1]]
    else Of(audit[..|audit| - 1], i)
  }

  lemma OfAppend(audit: seq<Record>, r: Record, i: nat)
    ensures Of(audit + [r], i) == if r.call == i then Of(audit, i) + [r] else Of(audit, i)
  {
    assert (audit + [r])[..|audit|] == audit;
  }

  function Tally(xs: seq<nat>, i: nat): nat {
    if xs == [] then 0 else Tally(xs[..|xs| - 1], i) + if xs[|xs| - 1] == i then 1 else 0
  }

  lemma TallyAppend(xs: seq<nat>, x: nat, i: nat)
    ensures Tally(xs + [x], i) == Tally(xs, i) + if x == i then 1 else 0
  {
    assert (xs + [x])[..|xs|] == xs;
  }

  /** Nothing was added, or the one entry that a call may add. */
  predicate Adds<T(==)>(book: seq<T>, longer: seq<T>, before: seq<T>, after: seq<T>) {
    (longer == book && after == before) || (before == [] && |after| == 1 && longer == book + after)
  }

  function Invoked(i: nat, pc: Pc): seq<nat> {
    if Invocations(pc) == 1 then [i] else []
  }

  /** What one act adds to the books is the difference between the two stages. */
  ghost predicate Booked(env: Env, i: nat, pc: Pc, g: Shared, pc': Pc, g': Shared)
    requires i < |env.reqs|
  {
    && Adds(g.audit, g'.audit, Wrote(env, i, pc), Wrote(env, i, pc'))
    && Adds(g.invoked, g'.invoked, Invoked(i, pc), Invoked(i, pc'))
  }

  lemma GateBooks(env: Env, i: nat, g: Shared, allowed: bool)
    requires i < |env.reqs|
    ensures var (pc', g') := GateStep(env, i, g, allowed); Booked(env, i, Arrived, g, pc', g')
  {
  }

  lemma ReadBooks(env: Env, i: nat, g: Shared, ok: bool)
    requires i < |env.reqs|
    ensures var (pc', g') := ReadStep(env, i, g, ok); Booked(env, i, Reading, g, pc', g')
  {
  }

  lemma ReturnBooks(env: Env, i: nat, g: Shared, handle: Option<nat>, o: Outcome)
    requires i < |env.reqs|
    ensures var (pc', g') := ReturnStep(env, i, g, handle, o); Booked(env, i, Forwarding(handle), g, pc', g')
  {
  }

  predicate OnTable(act: Act) {
    act.Acquire? || act.Publish? || act.Remove? || act.Close? || act.Wake? || act.Cancel?
  }

  predicate OnStore(act: Act) { act.Count? || act.Put? }

  lemma TableBooks(env: Env, i: nat, pc: Pc, g: Shared, act: Act)
    requires i < |env.reqs| && InRange(pc, g) && Possible(env, i, pc, g, act) && OnTable(act)
    ensures var (pc', g') := Perform(env, i, pc, g, act); Booked(env, i, pc, g, pc', g')
  {
  }

  lemma StoreBooks(env: Env, i: nat, pc: Pc, g: Shared, act: Act)
    requires i < |env.reqs| && InRange(pc, g) && Possible(env, i, pc, g, act) && OnStore(act)
    ensures var (pc', g') := Perform(env, i, pc, g, act); Booked(env, i, pc, g, pc', g')
  {
  }

  lemma HitBooks(env: Env, i: nat, pc: Pc, g: Shared, e: Store.Entry, kind: C.Kind)
    requires i < |env.reqs| && (pc == Reading || pc == Searching)
    ensures var (pc', g') := HitStep(env, i, g, e, kind); Booked(env, i, pc, g, pc', g')
  {
  }

  lemma BeginBooks(env: Env, i: nat, pc: Pc, g: Shared)
    requires i < |env.reqs| && InRange(pc, g) && Possible(env, i, pc, g, Begin) && PcOk(env, i, pc, g.log)
    ensures var (pc', g') := Perform(env, i, pc, g, Begin); Booked(env, i, pc, g, pc', g')
  {
  }

  lemma LoudBooks(env: Env, i: nat, pc: Pc, g: Shared, act: Act)
    requires i < |env.reqs| && InRange(pc, g) && Possible(env, i, pc, g, act) && (act.Note? || act.Report?)
    ensures var (pc', g') := Perform(env, i, pc, g, act); Booked(env, i, pc, g, pc', g')
  {
  }

  lemma ActBooks(env: Env, i: nat, pc: Pc, g: Shared, act: Act)
    requires i < |env.reqs| && InRange(pc, g) && Possible(env, i, pc, g, act) && PcOk(env, i, pc, g.log)
    ensures var (pc', g') := Perform(env, i, pc, g, act); Booked(env, i, pc, g, pc', g')
  {
    if OnTable(act) {
      TableBooks(env, i, pc, g, act);
    } else if OnStore(act) {
      StoreBooks(env, i, pc, g, act);
    } else if act.Gate? {
      GateBooks(env, i, g, act.allowed);
    } else if act.Read? {
      ReadBooks(env, i, g, act.ok);
    } else if act.Search? {
      if act.found.Some? { HitBooks(env, i, pc, g, act.found.value.entry, C.Semantic); }
    } else if act.Return? {
      ReturnBooks(env, i, g, pc.handle, act.outcome);
    } else if act.Begin? {
      BeginBooks(env, i, pc, g);
    } else {
      LoudBooks(env, i, pc, g, act);
    }
  }

  // ---- the invariant

  /** The books show, for each call, exactly what its stage says it did. */
  ghost predicate CallOk(env: Env, i: nat, pc: Pc, g: Shared)
    requires i < |env.reqs|
  {
    PcOk(env, i, pc, g.log) && Of(g.audit, i) == Wrote(env, i, pc) && Tally(g.invoked, i) == Invocations(pc)
  }

  predicate BooksNameCalls(n: nat, g: Shared) {
    (forall k :: 0 <= k < |g.audit| ==> g.audit[k].call < n) && (forall k :: 0 <= k < |g.invoked| ==> g.invoked[k] < n)
  }

  ghost predicate Inv(env: Env, s: State) {
    && |s.pcs| == |env.reqs|
    && C.Inv(Protocol(env, s))
    && StoreOk(env, s.shared)
    && BooksNameCalls(|env.reqs|, s.shared)
    && forall i :: 0 <= i < |s.pcs| ==> CallOk(env, i, s.pcs[i], s.shared)
  }

  lemma WroteOwn(env: Env, i: nat, pc: Pc)
    requires i < |env.reqs|
    ensures |Wrote(env, i, pc)| <= 1 && (|Wrote(env, i, pc)| == 1 ==> Wrote(env, i, pc)[0].call == i)
  {
  }

  lemma BookedRecords(env: Env, i: nat, pc: Pc, audit: seq<Record>, pc': Pc, audit': seq<Record>, j: nat)
    requires i < |env.reqs| && Adds(audit, audit', Wrote(env, i, pc), Wrote(env, i, pc'))
    ensures j != i ==> Of(audit', j) == Of(audit, j)
    ensures Of(audit, i) == Wrote(env, i, pc) ==> Of(audit', i) == Wrote(env, i, pc')
  {
    WroteOwn(env, i, pc');
    if audit' != audit {
      var r := Wrote(env, i, pc')[0];
      assert Wrote(env, i, pc') == [r];
      OfAppend(audit, r, i);
      OfAppend(audit, r, j);
    }
  }

  lemma BookedInvocations(i: nat, pc: Pc, invoked: seq<nat>, pc': Pc, invoked': seq<nat>, j: nat)
    requires Adds(invoked, invoked', Invoked(i, pc), Invoked(i, pc'))
    ensures j != i ==> Tally(invoked', j) == Tally(invoked, j)
    ensures Tally(invoked, i) == Invocations(pc) ==> Tally(invoked', i) == Invocations(pc')
  {
    if invoked' != invoked {
      TallyAppend(invoked, i, i);
      TallyAppend(invoked, i, j);
    }
  }

  lemma BookedNames(env: Env, i: nat, pc: Pc, g: Shared, pc': Pc, g': Shared)
    requires i < |env.reqs| && Booked(env, i, pc, g, pc', g') && BooksNameCalls(|env.reqs|, g)
    ensures BooksNameCalls(|env.reqs|, g')
  {
    WroteOwn(env, i, pc');
  }

  lemma CallInv(env: Env, s: State, i: nat, act: Act)
    requires Inv(env, s) && CanStep(env, s, Call(i, act))
    ensures Inv(env, Next(env, s, Call(i, act)))
  {
    var pc, g, t := s.pcs[i], s.shared, Next(env, s, Call(i, act));
    var (pc', g') := Perform(env, i, pc, g, act);
    assert CallOk(env, i, pc, g);
    NextProtocol(env, s, Call(i, act));
    ActPc(env, i, pc, g, act);
    ActStore(env, i, pc, g, act);
    ActBooks(env, i, pc, g, act);
    ActGrows(env, i, pc, g, act);
    forall j | 0 <= j < |t.pcs| ensures CallOk(env, j, t.pcs[j], g') {
      OtherCall(env, i, pc, g, pc', g', j, s.pcs[j]);
    }
    BookedNames(env, i, pc, g, pc', g');
  }

  lemma OtherCall(env: Env, i: nat, pc: Pc, g: Shared, pc': Pc, g': Shared, j: nat, other: Pc)
    requires i < |env.reqs| && j < |env.reqs| && Booked(env, i, pc, g, pc', g') && Extends(g.log, g'.log)
    requires CallOk(env, i, pc, g) && CallOk(env, j, other, g) && PcOk(env, i, pc', g'.log)
    ensures CallOk(env, i, pc', g') && (j != i ==> CallOk(env, j, other, g'))
  {
    BookedRecords(env, i, pc, g.audit, pc', g'.audit, j);
    BookedInvocations(i, pc, g.invoked, pc', g'.invoked, j);
    PcOkGrows(env, j, other, g.log, g'.log);
  }

  lemma NextInv(env: Env, s: State, step: Step)
    requires Inv(env, s) && CanStep(env, s, step)
    ensures Inv(env, Next(env, s, step))
  {
    if step.Call? {
      CallInv(env, s, step.i, step.act);
    } else {
      NextProtocol(env, s, step);
      ShrunkStoreOk(env, s.shared, Next(env, s, step).shared);
    }
  }

  lemma {:induction false} RunKeeps(env: Env, s: State, steps: seq<Step>, end: State)
    requires Inv(env, s) && IsRun(env, s, steps, end)
    ensures Inv(env, end)
    decreases |steps|
  {
    if steps != [] {
      NextInv(env, s, steps[0]);
      RunKeeps(env, Next(env, s, steps[0]), steps[1..], end);
    }
  }

  /** Everything below that asks for the invariant holds in every state of every run. */
  lemma EveryRunKeepsInv(env: Env, s: State, steps: seq<Step>, end: State)
    requires IsStart(env, s) && IsRun(env, s, steps, end)
    ensures Inv(env, end)
  {
    RunKeeps(env, s, steps, end);
  }
}
