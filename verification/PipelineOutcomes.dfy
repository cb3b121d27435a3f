/** What upstream said is what the callers are told, and who gets past the gates: laws of runs
    stated on outcomes and configuration alone. */
module PipelineOutcomes {
  import opened Outcomes
  import opened Policy
  import opened Pipeline
  import opened PipelineRuns
  import C = Coalescing
  import Store

  // ---- the ending of a forward

  /** `ending` says exactly what upstream said to call `i`. */
  predicate Tells(env: Env, i: nat, o: Outcome, ending: C.Ending)
    requires i < |env.reqs|
  {
    var hash := if env.Pol(i).mode == Off then "" else env.Hash(i);
    match o
    case Delivered(status, body) => ending == C.Fresh(C.Result(C.Forward, C.NoMatch, hash, status, body))
    case Errored(status, body, err) => ending == C.Failed(C.Result(C.Forward, C.NoMatch, hash, status, body), err)
    case Panic(msg) => ending == C.Panicked(msg)
  }

  /** Upstream has answered the call. */
  predicate Returned(pc: Pc) {
    pc.Storing? || pc.Publishing? || pc.Removing? || pc.Closing? || (pc.Done? && (pc.exit.Direct? || pc.exit.Led?))
  }

  /** The call carries upstream's outcome `o`; `panics` are the panics of its Put so far. */
  predicate Carries(env: Env, i: nat, pc: Pc, o: Outcome, panics: set<string>)
    requires i < |env.reqs|
  {
    match pc
    case Storing(_, status, body) => o == Delivered(status, body)
    case Publishing(_, ending) => TellsOr(env, i, o, ending, panics)
    case Removing(_, ending) => TellsOr(env, i, o, ending, panics)
    case Closing(_, ending) => TellsOr(env, i, o, ending, panics)
    case Done(Led(_, ending)) => TellsOr(env, i, o, ending, panics)
    case Done(Direct(ending)) => Tells(env, i, o, ending)
    case _ => false
  }

  predicate TellsOr(env: Env, i: nat, o: Outcome, ending: C.Ending, panics: set<string>)
    requires i < |env.reqs|
  {
    Tells(env, i, o, ending) || (ending.Panicked? && ending.msg in panics)
  }

  /** Every panic of call `i`'s Put in the run is among `panics`. */
  predicate PanicsWithin(steps: seq<Step>, i: nat, panics: set<string>) {
    forall k :: 0 <= k < |steps| ==> PanicWithin(steps[k], i, panics)
  }

  predicate PanicWithin(x: Step, i: nat, panics: set<string>) {
    x.Call? && x.i == i && x.act.Put? && x.act.put.PutPanicked? ==> x.act.put.msg in panics
  }

  lemma ReturnCarries(env: Env, i: nat, pc: Pc, g: Shared, o: Outcome, panics: set<string>)
    requires i < |env.reqs| && InRange(pc, g) && Possible(env, i, pc, g, Return(o))
    ensures Carries(env, i, Perform(env, i, pc, g, Return(o)).0, o, panics)
  {
  }

  lemma ActCarries(env: Env, i: nat, pc: Pc, g: Shared, act: Act, o: Outcome, panics: set<string>)
    requires i < |env.reqs| && InRange(pc, g) && Possible(env, i, pc, g, act) && PcOk(env, i, pc, g.log)
    requires Carries(env, i, pc, o, panics) && PanicWithin(Call(i, act), i, panics)
    ensures !act.Return? && Carries(env, i, Perform(env, i, pc, g, act).0, o, panics)
  {
  }

  lemma CarriedOn(env: Env, s: State, x: Step, i: nat, o: Outcome, panics: set<string>)
    requires Inv(env, s) && CanStep(env, s, x) && i < |s.pcs| && Carries(env, i, s.pcs[i], o, panics)
    requires PanicWithin(x, i, panics)
    ensures Carries(env, i, Next(env, s, x).pcs[i], o, panics)
    ensures forall other :: x != Call(i, Return(other))
  {
    assert CallOk(env, i, s.pcs[i], s.shared);
    if x.Call? && x.i == i { ActCarries(env, i, s.pcs[i], s.shared, x.act, o, panics); }
  }

  lemma {:induction false} CarriedToTheEnd(env: Env, s: State, steps: seq<Step>, end: State, i: nat, o: Outcome, panics: set<string>)
    requires Inv(env, s) && IsRun(env, s, steps, end) && i < |s.pcs| && Carries(env, i, s.pcs[i], o, panics)
    requires PanicsWithin(steps, i, panics)
    ensures i < |end.pcs| && Carries(env, i, end.pcs[i], o, panics)
    ensures forall other :: Call(i, Return(other)) !in steps
    decreases |steps|
  {
    if steps != [] {
      assert PanicWithin(steps[0], i, panics);
      CarriedOn(env, s, steps[0], i, o, panics);
      NextInv(env, s, steps[0]);
      CarriedToTheEnd(env, Next(env, s, steps[0]), steps[1..], end, i, o, panics);
    }
  }

  /** Over every run, from when upstream has answered call `i` the call carries that answer, but for
      a panic of its own Put, and it is not answered again. */
  lemma {:induction false} AnswerIsCarried(env: Env, s: State, steps: seq<Step>, end: State, i: nat, o: Outcome, panics: set<string>)
    requires Inv(env, s) && IsRun(env, s, steps, end) && i < |s.pcs| && Call(i, Return(o)) in steps
    requires PanicsWithin(steps, i, panics)
    ensures i < |end.pcs| && Carries(env, i, end.pcs[i], o, panics)
    decreases |steps|
  {
    var x, t := steps[0], Next(env, s, steps[0]);
    NextInv(env, s, x);
    if x == Call(i, Return(o)) {
      ReturnCarries(env, i, s.pcs[i], s.shared, o, panics);
      CarriedToTheEnd(env, t, steps[1..], end, i, o, panics);
    } else {
      AnswerIsCarried(env, t, steps[1..], end, i, o, panics);
    }
  }

  /** The panics of call `i`'s Put. */
  lemma {:induction false} AllPanics(steps: seq<Step>, i: nat) returns (panics: set<string>)
    ensures PanicsWithin(steps, i, panics)
    ensures forall msg :: msg in panics ==> Call(i, Put(PutPanicked(msg))) in steps
  {
    if steps == [] {
      panics := {};
    } else {
      var x := steps[0];
      panics := AllPanics(steps[1..], i);
      if x.Call? && x.i == i && x.act.Put? && x.act.put.PutPanicked? { panics := panics + {x.act.put.msg}; }
      forall k | 0 <= k < |steps| ensures PanicWithin(steps[k], i, panics) {
        if k > 0 { assert steps[k] == steps[1..][k - 1] && PanicWithin(steps[1..][k - 1], i, panics); }
      }
    }
  }

  predicate EndsAs(env: Env, i: nat, o: Outcome, exit: Exit, steps: seq<Step>)
    requires i < |env.reqs|
  {
    if exit.Direct? then Tells(env, i, o, exit.ending)
    else
      exit.Led? && (Tells(env, i, o, exit.ending)
                    || (exit.ending.Panicked? && Call(i, Put(PutPanicked(exit.ending.msg))) in steps))
  }

  /** The ending of a forward is upstream's own outcome: a delivery with exactly its status and body,
      under the call's fingerprint or, in off mode, none; an error with its text; a panic with its
      message.  Only a panicking Put replaces the outcome of a strict or cache call; a failing one
      does not. */
  lemma EndingIsOutcome(env: Env, s: State, steps: seq<Step>, end: State, i: nat, o: Outcome)
    requires IsStart(env, s) && IsRun(env, s, steps, end) && i < |s.pcs| && Call(i, Return(o)) in steps
    ensures i < |end.pcs| && (end.pcs[i].Done? ==> EndsAs(env, i, o, end.pcs[i].exit, steps))
  {
    EveryRunKeepsInv(env, s, [], s);
    var panics := AllPanics(steps, i);
    AnswerIsCarried(env, s, steps, end, i, o, panics);
  }

  /** And a call that ends as forwarded was answered. */
  lemma {:induction false} ForwardedWasAnswered(env: Env, s: State, steps: seq<Step>, end: State, i: nat) returns (o: Outcome)
    requires IsRun(env, s, steps, end) && i < |s.pcs| == |end.pcs| && !Returned(s.pcs[i]) && Returned(end.pcs[i])
    ensures Call(i, Return(o)) in steps
    decreases |steps|
  {
    var t := Next(env, s, steps[0]);
    if !Returned(t.pcs[i]) {
      o := ForwardedWasAnswered(env, t, steps[1..], end, i);
    } else {
      OnlyReturnReturns(env, i, s.pcs[i], s.shared, steps[0].act);
      o := steps[0].act.outcome;
    }
  }

  lemma OnlyReturnReturns(env: Env, i: nat, pc: Pc, g: Shared, act: Act)
    requires i < |env.reqs| && InRange(pc, g) && Possible(env, i, pc, g, act) && !Returned(pc)
    requires Returned(Perform(env, i, pc, g, act).0)
    ensures act.Return?
  {
  }

  /** How a waiter passes on what upstream said to its leader. */
  predicate Hears(hash: string, o: Outcome, v: C.Verdict) {
    match o
    case Delivered(status, body) => v == C.Shared(C.Result(C.Replay, C.Coalesced, hash, status, body))
    case Errored(_, _, err) => v == C.LeaderFailed("leader failed: " + err)
    case Panic(msg) => v == C.LeaderFailed("leader failed: " + ("forward panic: " + msg))
  }

  /** What a waiter that was not cancelled returns, in terms of what upstream said to its leader:
      the delivery, marked as a coalesced replay; or the error or the panic. */
  lemma WaiterHearsUpstream(env: Env, s: State, steps: seq<Step>, end: State, i: nat, h: nat, v: C.Verdict)
    returns (leader: nat, o: Outcome)
    requires IsStart(env, s) && IsRun(env, s, steps, end) && i < |s.pcs| == |end.pcs|
    requires end.pcs[i] == Done(Joined(h, v)) && v != C.Verdict.Cancelled
    ensures leader < |s.pcs| && env.Hash(leader) == env.Hash(i) && Call(leader, Return(o)) in steps
    ensures Hears(env.Hash(i), o, v)
            || exists msg :: Call(leader, Put(PutPanicked(msg))) in steps && Hears(env.Hash(i), Panic(msg), v)
  {
    EveryRunKeepsInv(env, s, steps, end);
    leader := C.WaiterHearsItsLeader(Protocol(env, end), i);
    var ending := Protocol(env, end).roles[leader].ending;
    assert end.pcs[leader] == Done(Led(h, ending)) && CallOk(env, leader, end.pcs[leader], end.shared);
    o := ForwardedWasAnswered(env, s, steps, end, leader);
    EndingIsOutcome(env, s, steps, end, leader, o);
    TellingOutcome(env, leader, o, ending);
  }

  lemma TellingOutcome(env: Env, i: nat, o: Outcome, ending: C.Ending)
    requires i < |env.reqs| && env.Pol(i).Coalesces()
    ensures Tells(env, i, o, ending) ==>
      Hears(env.Hash(i), o, C.Told(ending))
    ensures ending.Panicked? ==> Hears(env.Hash(i), Panic(ending.msg), C.Told(ending))
  {
  }

  // ---- the gates

  /** The tool names callers and this one is not among them. */
  predicate Unlisted(env: Env, i: nat)
    requires i < |env.reqs|
  {
    var list := env.Pol(i).allowedCallers;
    |list| > 0 && forall k :: 0 <= k < |list| ==> list[k] != env.reqs[i].caller
  }

  /** Where a call can stand, by the gates alone. */
  predicate GatesOk(env: Env, i: nat, pc: Pc)
    requires i < |env.reqs|
  {
    if env.Pol(i).mode == Off then
      pc == Arrived || pc == Forwarding(None) || (pc.Done? && pc.exit.Direct?)
    else if Unlisted(env, i) then
      pc == Arrived || pc == Done(Refused(C.Forbidden))
    else
      && pc != Done(Refused(C.Forbidden))
      && (pc.Done? && pc.exit.Refused? ==> pc.exit.decision == C.RateLimited && env.Pol(i).rps > 0.0)
      && (env.Analysed(i).None? ==> pc == Arrived || pc == Done(Rejected) || pc == Done(Refused(C.RateLimited)))
      && (env.Analysed(i).Some? ==> pc != Done(Rejected))
  }

  lemma GateIsOk(env: Env, i: nat, g: Shared, allowed: bool)
    requires i < |env.reqs|
    ensures GatesOk(env, i, GateStep(env, i, g, allowed).0)
    ensures env.Pol(i).mode != Off && !Unlisted(env, i) && env.Pol(i).rps > 0.0 && !allowed ==>
      GateStep(env, i, g, allowed).0 == Done(Refused(C.RateLimited))
    ensures env.Pol(i).mode != Off && !Unlisted(env, i) && (allowed || env.Pol(i).rps <= 0.0) && env.Analysed(i).Some? ==>
      GateStep(env, i, g, allowed).0 == Reading
  {
    var list, caller := env.Pol(i).allowedCallers, env.reqs[i].caller;
    assert caller in list <==> exists k :: 0 <= k < |list| && list[k] == caller;
  }

  lemma ActGatesOk(env: Env, i: nat, pc: Pc, g: Shared, act: Act)
    requires i < |env.reqs| && InRange(pc, g) && Possible(env, i, pc, g, act) && GatesOk(env, i, pc)
    ensures GatesOk(env, i, Perform(env, i, pc, g, act).0)
  {
    if act.Gate? { GateIsOk(env, i, g, act.allowed); }
  }

  lemma {:induction false} RunGatesOk(env: Env, s: State, steps: seq<Step>, end: State, i: nat)
    requires IsRun(env, s, steps, end) && i < |s.pcs| == |env.reqs| && GatesOk(env, i, s.pcs[i])
    ensures i < |end.pcs| && GatesOk(env, i, end.pcs[i])
    decreases |steps|
  {
    if steps != [] {
      if steps[0].Call? && steps[0].i == i { ActGatesOk(env, i, s.pcs[i], s.shared, steps[0].act); }
      RunGatesOk(env, Next(env, s, steps[0]), steps[1..], end, i);
    }
  }

  /** Over every run: outside off mode a caller that is missing from a non-empty list only ever waits
      at the door or is forbidden, and nobody else is forbidden; a call in off mode is only ever
      forwarded; a rate limit refuses only where one is set; a body is rejected exactly if it cannot
      be analysed, once the other gates are passed. */
  lemma GatesHold(env: Env, s: State, steps: seq<Step>, end: State, i: nat)
    requires IsStart(env, s) && IsRun(env, s, steps, end) && i < |s.pcs|
    ensures i < |end.pcs| && GatesOk(env, i, end.pcs[i])
    ensures end.pcs[i] == Done(Refused(C.Forbidden)) ==> env.Pol(i).mode != Off && Unlisted(env, i)
  {
    RunGatesOk(env, s, steps, end, i);
  }

  // ---- the audit record

  /** The record a finished call leaves: who, under which mode, what was decided, on which kind of
      match, and for which fingerprint.  A block or a replay names the entry's fingerprint, the others
      the call's own; a refusal names none. */
  predicate Records(env: Env, i: nat, exit: Exit, r: Record)
    requires i < |env.reqs|
  {
    && r.call == i && r.tool == env.reqs[i].tool && r.mode == env.cfg.For(env.reqs[i].tool).mode
    && match exit
       case Refused(d) => r.decision == d && r.kind == C.NoMatch && r.hash == ""
       case Blocked(e, kind) => r.decision == C.Block && r.kind == kind && (e.hash != "" ==> r.hash == e.hash)
       case Replayed(e, kind) => r.decision == C.Replay && r.kind == kind && (e.hash != "" ==> r.hash == e.hash)
       case Joined(_, v) =>
         && r.hash == env.Hash(i)
         && (if v.Shared? then r.decision == C.Replay && r.kind == C.Coalesced else r.decision == C.Forward && r.kind == C.NoMatch)
       case _ => r.decision == C.Forward && r.kind == C.NoMatch && r.hash == env.Hash(i)
  }

  /** Every finished call that is neither off nor rejected has left exactly that record. */
  lemma RecordSays(env: Env, s: State, i: nat)
    requires Inv(env, s) && i < |s.pcs| && s.pcs[i].Done? && env.Pol(i).mode != Off && !s.pcs[i].exit.Rejected?
    ensures |Of(s.shared.audit, i)| == 1 && Records(env, i, s.pcs[i].exit, Of(s.shared.audit, i)[0])
  {
    assert CallOk(env, i, s.pcs[i], s.shared);
  }

  // ---- what is cached

  /** Over every run, a Put of call `i` follows a delivery to it with a status from 200 to 299, in
      strict or cache mode. */
  lemma {:induction false} PutFollowsSuccess(env: Env, s: State, steps: seq<Step>, end: State, i: nat, put: PutOutcome)
    returns (status: int, body: string)
    requires Inv(env, s) && IsRun(env, s, steps, end) && i < |s.pcs| && Call(i, Put(put)) in steps
    requires !Returned(s.pcs[i])
    ensures Call(i, Return(Delivered(status, body))) in steps && 200 <= status <= 299
    ensures env.cfg.For(env.reqs[i].tool).mode == Strict || env.cfg.For(env.reqs[i].tool).mode == CacheMode
    decreases |steps|
  {
    var x, t := steps[0], Next(env, s, steps[0]);
    NextInv(env, s, x);
    assert CallOk(env, i, s.pcs[i], s.shared) && CallOk(env, i, t.pcs[i], t.shared);
    if !Returned(t.pcs[i]) {
      status, body := PutFollowsSuccess(env, t, steps[1..], end, i, put);
    } else {
      OnlyReturnReturns(env, i, s.pcs[i], s.shared, x.act);
      var panics := AllPanics(steps, i);
      ReturnCarries(env, i, s.pcs[i], s.shared, x.act.outcome, panics);
      StoringWhenPut(env, t, steps[1..], end, i, put);
      status, body := t.pcs[i].status, t.pcs[i].body;
    }
  }

  /** Past `Storing` there is no Put. */
  lemma {:induction false} StoringWhenPut(env: Env, s: State, steps: seq<Step>, end: State, i: nat, put: PutOutcome)
    requires IsRun(env, s, steps, end) && i < |s.pcs| == |env.reqs| && Returned(s.pcs[i]) && Call(i, Put(put)) in steps
    ensures s.pcs[i].Storing?
    decreases |steps|
  {
    if !s.pcs[i].Storing? {
      var x, t := steps[0], Next(env, s, steps[0]);
      if x.Call? && x.i == i { PastStoring(env, i, s.pcs[i], s.shared, x.act); }
      StoringWhenPut(env, t, steps[1..], end, i, put);
    }
  }

  lemma PastStoring(env: Env, i: nat, pc: Pc, g: Shared, act: Act)
    requires i < |env.reqs| && InRange(pc, g) && Possible(env, i, pc, g, act) && Returned(pc) && !pc.Storing?
    ensures !act.Put?
    ensures var pc' := Perform(env, i, pc, g, act).0; Returned(pc') && !pc'.Storing?
  {
  }

  /** And conversely: a strict or cache call that upstream answers with such a status does a Put before
      it ends. */
  lemma {:induction false} SuccessIsPut(env: Env, s: State, steps: seq<Step>, end: State, i: nat, status: int, body: string)
    requires Inv(env, s) && IsRun(env, s, steps, end) && i < |s.pcs| == |end.pcs| && Call(i, Return(Delivered(status, body))) in steps
    requires 200 <= status <= 299 && end.pcs[i].Done?
    requires env.cfg.For(env.reqs[i].tool).mode == Strict || env.cfg.For(env.reqs[i].tool).mode == CacheMode
    ensures exists put :: Call(i, Put(put)) in steps
    decreases |steps|
  {
    var x, t := steps[0], Next(env, s, steps[0]);
    NextInv(env, s, x);
    if x == Call(i, Return(Delivered(status, body))) {
      assert CallOk(env, i, s.pcs[i], s.shared);
      SuccessStores(env, i, s.pcs[i], s.shared, status, body);
      StoredIsPut(env, t, steps[1..], end, i);
    } else {
      SuccessIsPut(env, t, steps[1..], end, i, status, body);
    }
  }

  lemma SuccessStores(env: Env, i: nat, pc: Pc, g: Shared, status: int, body: string)
    requires i < |env.reqs| && InRange(pc, g) && Possible(env, i, pc, g, Return(Delivered(status, body)))
    requires PcOk(env, i, pc, g.log) && 200 <= status <= 299
    requires env.cfg.For(env.reqs[i].tool).mode == Strict || env.cfg.For(env.reqs[i].tool).mode == CacheMode
    ensures Perform(env, i, pc, g, Return(Delivered(status, body))).0.Storing?
  {
  }

  lemma {:induction false} StoredIsPut(env: Env, s: State, steps: seq<Step>, end: State, i: nat)
    requires IsRun(env, s, steps, end) && i < |s.pcs| == |end.pcs| && s.pcs[i].Storing? && !end.pcs[i].Storing?
    ensures exists put :: Call(i, Put(put)) in steps
    decreases |steps|
  {
    var x, t := steps[0], Next(env, s, steps[0]);
    if t.pcs[i].Storing? {
      StoredIsPut(env, t, steps[1..], end, i);
    } else {
      assert x == Call(i, Put(x.act.put)) && x in steps;
    }
  }

  // ---- which mode ends how

  /** The ways in which a call can end, by the mode of its tool: only strict with confirmation blocks,
      only strict without it and cache replay, lead and wait; the other modes only forward directly. */
  predicate EndsWithin(pol: ToolPolicy, exit: Exit) {
    match exit
    case Blocked(_, _) => pol.mode == Strict && pol.confirmReplay
    case Replayed(_, _) => pol.mode == CacheMode || (pol.mode == Strict && !pol.confirmReplay)
    case Led(_, _) => pol.mode == Strict || pol.mode == CacheMode
    case Joined(_, _) => pol.mode == Strict || pol.mode == CacheMode
    case Direct(_) => pol.mode != Strict && pol.mode != CacheMode
    case _ => pol.mode != Off
  }

  lemma ExitsByMode(env: Env, s: State, i: nat)
    requires Inv(env, s) && i < |s.pcs| && s.pcs[i].Done?
    ensures EndsWithin(env.cfg.For(env.reqs[i].tool), s.pcs[i].exit)
  {
    assert CallOk(env, i, s.pcs[i], s.shared);
  }

  /** A strict or cache call whose read finds a live entry under its key is answered by it: blocked if
      the mode is strict and replays need confirmation, on its way to be replayed otherwise.  If the
      read finds nothing, a semantic search follows exactly where an embedder is configured, the
      threshold is positive and the call has an intent. */
  lemma ReadDecides(env: Env, i: nat, g: Shared)
    requires i < |env.reqs|
    requires env.cfg.For(env.reqs[i].tool).mode == Strict || env.cfg.For(env.reqs[i].tool).mode == CacheMode
    ensures var pol, k, pc := env.cfg.For(env.reqs[i].tool), env.Key(i), ReadStep(env, i, g, true).0;
      if k in g.tab && (g.tab[k].ttl == 0 || g.now - g.tab[k].createdAt <= g.tab[k].ttl) then
        pc == if pol.mode == Strict && pol.confirmReplay then Done(Blocked(g.tab[k], C.Exact)) else Hitting(g.tab[k], C.Exact)
      else
        pc == if env.embed.Some? && pol.threshold > 0.0 && env.Intent(i) != "" then Searching else Missed
    ensures ReadStep(env, i, g, false) == (Missed, g)
  {
  }

  /** Counting a replay adds one to the counter of the replayed entry and changes nothing else. */
  lemma CountingCounts(env: Env, i: nat, pc: Pc, g: Shared)
    requires i < |env.reqs| && pc.Counting? && Store.Key(env.Tool(i), pc.entry.hash) in g.tab
    ensures var k, tab := Store.Key(env.Tool(i), pc.entry.hash), Perform(env, i, pc, g, Count(true)).1.tab;
      tab == g.tab[k := g.tab[k].(replays := g.tab[k].replays + 1)]
  {
  }

  /** A Put leaves a fresh entry under the call's key: created now, never replayed. */
  lemma PutIsFresh(env: Env, i: nat, pc: Pc, g: Shared)
    requires i < |env.reqs| && pc.Storing? && InRange(pc, g) && env.Tool(i) != "" && env.Hash(i) != ""
    ensures var tab := Perform(env, i, pc, g, Put(Written)).1.tab;
      && env.Key(i) in tab && tab[env.Key(i)].createdAt == g.now && tab[env.Key(i)].replays == 0
      && tab - {env.Key(i)} == g.tab - {env.Key(i)}
  {
  }

  // ---- what can happen

  /** The surroundings are free: the limiter may allow or not, the store may work or fail, upstream may
      answer anything or fail or panic, a Put may succeed, fail or panic, and a waiter may be cancelled
      at any moment. */
  lemma AnythingCanHappen(env: Env, i: nat, pc: Pc, g: Shared, yes: bool, o: Outcome, put: PutOutcome)
    requires i < |env.reqs| && InRange(pc, g)
    ensures pc.Arrived? ==> Possible(env, i, pc, g, Gate(yes))
    ensures pc.Reading? ==> Possible(env, i, pc, g, Read(yes))
    ensures pc.Counting? ==> Possible(env, i, pc, g, Count(yes))
    ensures pc.Forwarding? ==> Possible(env, i, pc, g, Return(o))
    ensures pc.Storing? ==> Possible(env, i, pc, g, Put(put))
    ensures pc.Waiting? ==> Possible(env, i, pc, g, Cancel)
    ensures pc.Searching? ==> Possible(env, i, pc, g, Act.Search(true, None))
  {
  }

  /** Time may advance, the store may be compacted, which leaves exactly the live entries, and any key
      may be deleted. */
  lemma SurroundingsAct(env: Env, s: State, now: int, key: string)
    ensures now >= s.shared.now ==> CanStep(env, s, Tick(now)) && Next(env, s, Tick(now)).shared.now == now
    ensures CanStep(env, s, Compact) && CanStep(env, s, Forget(key))
    ensures var tab, left := s.shared.tab, Next(env, s, Compact).shared.tab;
      forall k :: k in left <==> k in tab && (tab[k].ttl == 0 || s.shared.now - tab[k].createdAt <= tab[k].ttl)
    ensures forall k :: k in Next(env, s, Compact).shared.tab ==> Next(env, s, Compact).shared.tab[k] == s.shared.tab[k]
    ensures Next(env, s, Forget(key)).shared.tab == s.shared.tab - {key}
  {
  }
}
