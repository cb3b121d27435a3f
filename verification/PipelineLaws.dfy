/** What the pipeline guarantees over all its runs.  `Inv` holds in every reachable state
    (`PipelineRuns.EveryRunKeepsInv`). */
module PipelineLaws {
  import opened Outcomes
  import opened KeyOrder
  import opened Policy
  import opened Pipeline
  import opened PipelineRuns
  import C = Coalescing
  import Store
  import Search
  import Embed

  // ---- sharing

  /** At most one forward per fingerprint is running. */
  lemma OneForwardPerFingerprint(env: Env, s: State, i: nat, j: nat)
    requires Inv(env, s) && i < |s.pcs| && j < |s.pcs| && env.Hash(i) == env.Hash(j)
    requires env.Pol(i).Coalesces() && env.Pol(j).Coalesces()
    requires s.pcs[i].Forwarding? && s.pcs[j].Forwarding?
    ensures i == j
  {
    assert CallOk(env, i, s.pcs[i], s.shared) && CallOk(env, j, s.pcs[j], s.shared);
    C.OneForwardPerHash(Protocol(env, s), i, j);
  }

  /** A waiter that was not cancelled returns what its leader, a finished call with the same
      fingerprint, ended with; a shared body is one upstream delivered for the leader's tool. */
  lemma WaiterReturnsLeadersOutcome(env: Env, s: State, i: nat, h: nat, v: C.Verdict) returns (leader: nat, ending: C.Ending)
    requires Inv(env, s) && i < |s.pcs| && s.pcs[i] == Done(Joined(h, v)) && v != C.Verdict.Cancelled
    ensures leader < |s.pcs| && s.pcs[leader] == Done(Led(h, ending)) && env.Hash(leader) == env.Hash(i)
    ensures v == C.Told(ending)
    ensures v.Shared? ==> Delivery(env.Tool(leader), v.result.status, v.result.body) in s.shared.log
    ensures v.Shared? ==> v.result.hash == env.Hash(i)
  {
    leader := C.WaiterHearsItsLeader(Protocol(env, s), i);
    ending := Protocol(env, s).roles[leader].ending;
    assert CallOk(env, leader, s.pcs[leader], s.shared);
  }

  // ---- replays

  ghost predicate NulFreeTools(env: Env) {
    forall i :: 0 <= i < |env.reqs| ==> Store.NulFree(env.Tool(i))
  }

  /** True of every hex digest. */
  ghost predicate NulFreeHashes(env: Env) {
    forall i :: 0 <= i < |env.reqs| ==> Store.NulFree(env.Hash(i))
  }

  /** An exact hit is the caller's own tool and fingerprint if fingerprints, or tools, are NUL-free.
      A semantic hit is the caller's own tool, or, with NUL-free fingerprints, of a tool whose name
      continues the caller's with a NUL. */
  lemma HitIsOwnTool(env: Env, i: nat, log: seq<Delivery>, e: Store.Entry, kind: C.Kind)
    requires i < |env.reqs| && HitOk(env, i, log, e, kind)
    ensures (NulFreeTools(env) || NulFreeHashes(env)) && kind == C.Exact ==> e.tool == env.Tool(i) && e.hash == env.Hash(i)
    ensures NulFreeTools(env) ==> e.tool == env.Tool(i)
    ensures NulFreeHashes(env) ==> e.tool == env.Tool(i) || HasPrefix(e.tool, Store.Prefix(env.Tool(i)))
  {
    var j :| 0 <= j < |env.reqs| && WrittenFor(env, j, e);
    if NulFreeTools(env) {
      Store.KeyInjective(env.Tool(j), e.hash, env.Tool(i), env.Hash(i));
      Store.PrefixSelectsTool(env.Tool(j), e.hash, env.Tool(i));
    }
    if NulFreeHashes(env) {
      Store.KeyInjectiveByHash(e.tool, env.Hash(j), env.Tool(i), env.Hash(i));
      Store.PrefixSelectsExactly(e.tool, env.Hash(j), env.Tool(i));
    }
  }

  /** A replay from the store comes from a success upstream reported earlier for the tool of the
      entry: its body is that response, or the acknowledgement when none was kept. */
  lemma ReplayComesFromUpstream(env: Env, s: State, i: nat, e: Store.Entry, kind: C.Kind) returns (d: Delivery)
    requires Inv(env, s) && i < |s.pcs| && s.pcs[i] == Done(Replayed(e, kind))
    ensures d in s.shared.log && d.tool == e.tool && Success(d.status)
    ensures var r := ReplayResult(env, i, e, kind);
      && r.status == d.status
      && r.body == (if env.cfg.For(e.tool).strategy == SynthesizedAck || d.body == ""
                    then env.Pol(i).Acknowledgement(env.Tool(i), e.hash) else d.body)
      && r.hash == e.hash && r.decision == C.Replay && r.kind == kind
    ensures kind == C.Exact || kind == C.Semantic
    ensures NulFreeTools(env) ==> d.tool == env.Tool(i)
    ensures (NulFreeTools(env) || NulFreeHashes(env)) && kind == C.Exact ==> d.tool == env.Tool(i) && e.hash == env.Hash(i)
    ensures NulFreeHashes(env) ==> d.tool == env.Tool(i) || HasPrefix(d.tool, Store.Prefix(env.Tool(i)))
    ensures !env.Confirms(i)
  {
    assert CallOk(env, i, s.pcs[i], s.shared);
    HitIsOwnTool(env, i, s.shared.log, e, kind);
    d :| d in s.shared.log && From(env, d, e);
  }

  /** A semantic replay answers with what was cached for a call whose intent scores at or above the
      threshold against the caller's own. */
  lemma SemanticReplayIsSimilar(env: Env, s: State, i: nat, e: Store.Entry) returns (j: nat, score: real)
    requires Inv(env, s) && i < |s.pcs| && s.pcs[i] == Done(Replayed(e, C.Semantic))
    ensures j < |env.reqs| && env.Tool(j) == e.tool && env.Hash(j) == e.hash
    ensures NulFreeTools(env) ==> env.Tool(j) == env.Tool(i)
    ensures env.Query(i).Some? && env.Query(j).Some?
    ensures Embed.Cosine(env.sqrt, env.Query(i).value, env.Query(j).value) == Some(score)
    ensures score >= env.Pol(i).threshold && score > 0.0
  {
    assert CallOk(env, i, s.pcs[i], s.shared);
    HitIsOwnTool(env, i, s.shared.log, e, C.Semantic);
    j :| 0 <= j < |env.reqs| && WrittenFor(env, j, e);
    assert e.embedding != [];
    score := Search.Similarity(env.sqrt, env.Query(i).value, e).value;
  }

  /** What the store holds, field by field: for some call of the entry's tool, its request, or nothing
      where the policy redacts; the body and status of a 2xx delivery for that tool, or no body where
      the policy asks for acknowledgements; the tool's time to live; the embedding of the call's intent,
      where there is one. */
  lemma StoredEntryIs(env: Env, s: State, k: string) returns (j: nat, d: Delivery)
    requires Inv(env, s) && k in s.shared.tab
    ensures j < |env.reqs| && d in s.shared.log && 200 <= d.status < 300
    ensures var e := s.shared.tab[k];
      var pol := env.cfg.For(e.tool);
      && e.tool == env.reqs[j].tool == d.tool && e.hash == env.Hash(j) && k == Store.Key(e.tool, e.hash)
      && e.request == (if pol.redactRequest then "" else env.reqs[j].body)
      && e.response == (if pol.strategy == SynthesizedAck then "" else d.body)
      && e.status == d.status && e.ttl == pol.ttl
      && e.embedding == (if env.Query(j).Some? then env.Query(j).value else [])
  {
    var e := s.shared.tab[k];
    assert EntryOk(env, s.shared.log, k, e);
    d :| d in s.shared.log && From(env, d, e);
    j :| 0 <= j < |env.reqs| && WrittenFor(env, j, e);
  }

  // ---- a forward follows a miss

  predicate NotYetRead(pc: Pc) { pc.Arrived? || pc.Reading? }

  /** On its way to an answer that involves neither upstream nor another call. */
  predicate Answered(pc: Pc) {
    pc.Hitting? || pc.Counting? ||
    (pc.Done? && (pc.exit.Replayed? || pc.exit.Blocked? || pc.exit.Refused? || pc.exit.Rejected?))
  }

  /** Neither: searching, missed, forwarding or waiting for somebody who does. */
  predicate WentOn(pc: Pc) { !NotYetRead(pc) && !Answered(pc) }

  lemma AnsweredStays(env: Env, i: nat, pc: Pc, g: Shared, act: Act)
    requires i < |env.reqs| && InRange(pc, g) && Possible(env, i, pc, g, act) && Answered(pc)
    ensures Answered(Perform(env, i, pc, g, act).0)
  {
  }

  lemma {:induction false} AnsweredToTheEnd(env: Env, s: State, steps: seq<Step>, end: State, j: nat)
    requires IsRun(env, s, steps, end) && j < |s.pcs| && Answered(s.pcs[j])
    ensures j < |end.pcs| && Answered(end.pcs[j])
    decreases |steps|
  {
    if steps != [] {
      if steps[0].Call? && steps[0].i == j {
        AnsweredStays(env, j, s.pcs[j], s.shared, steps[0].act);
      }
      AnsweredToTheEnd(env, Next(env, s, steps[0]), steps[1..], end, j);
    }
  }

  /** Before its read a call in strict or cache mode is only gated, and a read that finds a live
      entry answers it. */
  lemma FirstActs(env: Env, j: nat, pc: Pc, g: Shared, act: Act)
    requires j < |env.reqs| && env.Pol(j).Coalesces() && InRange(pc, g) && Possible(env, j, pc, g, act) && NotYetRead(pc)
    requires act.Read? ==> act.ok && Store.Lookup(g.tab, g.now, env.Key(j)).Some?
    ensures !WentOn(Perform(env, j, pc, g, act).0)
  {
  }

  /** A strict or cache call that goes on to forward, or to wait for a forward, has performed its
      own read of the store at some step `k`, and unless that read failed there was no live
      entry under its key. */
  lemma {:induction false} ForwardFollowsOwnMiss(env: Env, s: State, steps: seq<Step>, end: State, j: nat)
    returns (k: nat, m: State)
    requires |s.pcs| == |env.reqs| && IsRun(env, s, steps, end)
    requires j < |s.pcs| == |end.pcs| && env.Pol(j).Coalesces() && NotYetRead(s.pcs[j]) && WentOn(end.pcs[j])
    ensures k < |steps| && IsRun(env, s, steps[..k], m) && IsRun(env, m, steps[k..], end)
    ensures steps[k] == Call(j, Read(true)) || steps[k] == Call(j, Read(false))
    ensures steps[k] == Call(j, Read(true)) ==> Store.Lookup(m.shared.tab, m.shared.now, env.Key(j)) == None
    decreases |steps|
  {
    var x, t := steps[0], Next(env, s, steps[0]);
    if x.Call? && x.i == j && x.act.Read? && (!x.act.ok || Store.Lookup(s.shared.tab, s.shared.now, env.Key(j)) == None) {
      k, m := 0, s;
      assert steps[..0] == [] && steps[0..] == steps;
    } else {
      if x.Call? && x.i == j {
        FirstActs(env, j, s.pcs[j], s.shared, x.act);
        if Answered(t.pcs[j]) { AnsweredToTheEnd(env, t, steps[1..], end, j); }
      }
      k, m := ForwardFollowsOwnMiss(env, t, steps[1..], end, j);
      assert steps[..k + 1][1..] == steps[1..][..k] && steps[k + 1..] == steps[1..][k..];
      k := k + 1;
    }
  }

  // ---- nothing is forwarded again while its entry lives

  lemma ClockMonotone(env: Env, s: State, step: Step)
    requires CanStep(env, s, step)
    ensures s.shared.now <= Next(env, s, step).shared.now
  {
  }

  lemma {:induction false} ClockMonotoneRun(env: Env, s: State, steps: seq<Step>, end: State)
    requires IsRun(env, s, steps, end)
    ensures s.shared.now <= end.shared.now
    decreases |steps|
  {
    if steps != [] {
      ClockMonotone(env, s, steps[0]);
      ClockMonotoneRun(env, Next(env, s, steps[0]), steps[1..], end);
    }
  }

  /** No two tools share a key: so it is if tools, or fingerprints, are NUL-free. */
  ghost predicate DistinctKeys(env: Env) {
    forall i, j :: 0 <= i < |env.reqs| && 0 <= j < |env.reqs| && env.Key(i) == env.Key(j) ==> env.Tool(i) == env.Tool(j)
  }

  lemma NulFreeKeysAreDistinct(env: Env)
    requires NulFreeTools(env) || NulFreeHashes(env)
    ensures DistinctKeys(env)
  {
    forall i, j | 0 <= i < |env.reqs| && 0 <= j < |env.reqs| && env.Key(i) == env.Key(j)
      ensures env.Tool(i) == env.Tool(j)
    {
      if NulFreeTools(env) {
        Store.KeyInjective(env.Tool(i), env.Hash(i), env.Tool(j), env.Hash(j));
      } else {
        Store.KeyInjectiveByHash(env.Tool(i), env.Hash(i), env.Tool(j), env.Hash(j));
      }
    }
  }

  /** The entry under `k` was created at or after `since`, for `ttl`. */
  predicate Kept(g: Shared, k: string, ttl: int, since: int) {
    k in g.tab && g.tab[k].ttl == ttl && since <= g.tab[k].createdAt <= g.now
  }

  predicate Within(ttl: int, since: int, now: int) { ttl == 0 || now - since <= ttl }

  lemma PutKeeps(env: Env, i: nat, j: nat, g: Shared, status: int, body: string, since: int)
    requires i < |env.reqs| && j < |env.reqs| && DistinctKeys(env) && Kept(g, env.Key(j), env.Pol(j).ttl, since)
    ensures Kept(g.(tab := Store.AfterPut(g.tab, g.now, BuildEntry(env, i, g.now, status, body))),
                 env.Key(j), env.Pol(j).ttl, since)
  {
    assert env.Key(i) == Store.Key(env.Tool(i), env.Hash(i));
  }

  lemma StoreUntouched(env: Env, i: nat, pc: Pc, g: Shared, act: Act)
    requires i < |env.reqs| && InRange(pc, g) && Possible(env, i, pc, g, act)
    requires !act.Read? && !act.Put? && !act.Count?
    ensures var g' := Perform(env, i, pc, g, act).1; g'.tab == g.tab && g'.now == g.now
  {
  }

  lemma ReadKeeps(env: Env, i: nat, g: Shared, ok: bool, k: string, ttl: int, since: int)
    requires i < |env.reqs| && Kept(g, k, ttl, since) && Within(ttl, since, g.now)
    ensures Kept(ReadStep(env, i, g, ok).1, k, ttl, since)
  {
  }

  lemma ActKeeps(env: Env, i: nat, pc: Pc, g: Shared, act: Act, j: nat, since: int)
    requires i < |env.reqs| && j < |env.reqs| && DistinctKeys(env)
    requires InRange(pc, g) && Possible(env, i, pc, g, act)
    requires Kept(g, env.Key(j), env.Pol(j).ttl, since) && Within(env.Pol(j).ttl, since, g.now)
    ensures Kept(Perform(env, i, pc, g, act).1, env.Key(j), env.Pol(j).ttl, since)
  {
    if act.Put? {
      PutKeeps(env, i, j, g, pc.status, pc.body, since);
    } else if act.Read? {
      ReadKeeps(env, i, g, act.ok, env.Key(j), env.Pol(j).ttl, since);
    } else if !act.Count? {
      StoreUntouched(env, i, pc, g, act);
    }
  }

  predicate NeverForgets(steps: seq<Step>, k: string) { Forget(k) !in steps }

  lemma StepKeeps(env: Env, s: State, step: Step, j: nat, since: int)
    requires CanStep(env, s, step) && j < |env.reqs| && DistinctKeys(env) && step != Forget(env.Key(j))
    requires Kept(s.shared, env.Key(j), env.Pol(j).ttl, since) && Within(env.Pol(j).ttl, since, s.shared.now)
    ensures Kept(Next(env, s, step).shared, env.Key(j), env.Pol(j).ttl, since)
  {
    if step.Call? { ActKeeps(env, step.i, s.pcs[step.i], s.shared, step.act, j, since); }
  }

  lemma {:induction false} RunKeepsEntry(env: Env, s: State, steps: seq<Step>, end: State, j: nat, since: int)
    requires IsRun(env, s, steps, end) && j < |env.reqs| && DistinctKeys(env) && NeverForgets(steps, env.Key(j))
    requires Kept(s.shared, env.Key(j), env.Pol(j).ttl, since) && Within(env.Pol(j).ttl, since, end.shared.now)
    ensures Kept(end.shared, env.Key(j), env.Pol(j).ttl, since)
    decreases |steps|
  {
    if steps != [] {
      ClockMonotoneRun(env, s, steps, end);
      assert steps[0] in steps;
      StepKeeps(env, s, steps[0], j, since);
      RunKeepsEntry(env, Next(env, s, steps[0]), steps[1..], end, j, since);
    }
  }

  lemma {:induction false} SameCalls(env: Env, s: State, steps: seq<Step>, end: State)
    requires IsRun(env, s, steps, end)
    ensures |end.pcs| == |s.pcs|
    decreases |steps|
  {
    if steps != [] { SameCalls(env, Next(env, s, steps[0]), steps[1..], end); }
  }

  lemma NoForwardWhileKept(env: Env, s: State, steps: seq<Step>, end: State, j: nat, since: int)
    requires |s.pcs| == |env.reqs| == |end.pcs| && DistinctKeys(env) && IsRun(env, s, steps, end)
    requires j < |s.pcs| && env.Pol(j).Coalesces()
    requires NotYetRead(s.pcs[j]) && Call(j, Read(false)) !in steps && NeverForgets(steps, env.Key(j))
    requires Kept(s.shared, env.Key(j), env.Pol(j).ttl, since) && Within(env.Pol(j).ttl, since, end.shared.now)
    ensures !WentOn(end.pcs[j])
  {
    if WentOn(end.pcs[j]) {
      var k, m := ForwardFollowsOwnMiss(env, s, steps, end, j);
      assert steps[k] in steps;
      ClockMonotoneRun(env, m, steps[k..], end);
      RunKeepsEntry(env, s, steps[..k], m, j, since);
    }
  }

  lemma PutStarts(env: Env, s: State, i: nat, j: nat)
    requires Inv(env, s) && CanStep(env, s, Call(i, Put(Written))) && j < |s.pcs| && j != i
    requires env.Tool(j) == env.Tool(i) != "" && env.Hash(j) == env.Hash(i) != ""
    ensures var t := Next(env, s, Call(i, Put(Written)));
      Kept(t.shared, env.Key(j), env.Pol(j).ttl, s.shared.now) && |t.pcs| == |s.pcs| && t.pcs[j] == s.pcs[j]
    ensures env.Pol(i).Coalesces()
  {
    assert CallOk(env, i, s.pcs[i], s.shared);
  }

  /** Call `i` caches a success.  A strict or cache call `j` with the same tool and fingerprint
      that has not read the store by then never forwards, nor waits for a forward, as long as the
      time to live lasts, its own read does not fail and nobody deletes the entry, whatever the
      other calls do in between. */
  lemma NoForwardWithinTtl(env: Env, s: State, i: nat, steps: seq<Step>, end: State, j: nat)
    requires Inv(env, s) && DistinctKeys(env) && CanStep(env, s, Call(i, Put(Written)))
    requires IsRun(env, Next(env, s, Call(i, Put(Written))), steps, end)
    requires j < |s.pcs| && env.Tool(j) == env.Tool(i) && env.Hash(j) == env.Hash(i)
    requires env.Tool(j) != "" && env.Hash(j) != ""
    requires NotYetRead(s.pcs[j]) && Call(j, Read(false)) !in steps && NeverForgets(steps, env.Key(j))
    requires Within(env.Pol(j).ttl, s.shared.now, end.shared.now)
    ensures j < |end.pcs| && !WentOn(end.pcs[j]) && Invocations(end.pcs[j]) == 0
  {
    var t := Next(env, s, Call(i, Put(Written)));
    PutStarts(env, s, i, j);
    SameCalls(env, t, steps, end);
    NoForwardWhileKept(env, t, steps, end, j, s.shared.now);
  }

  // ---- every call ends

  /** Steps a call still has ahead of it at most. */
  function Rank(pc: Pc): nat {
    match pc
    case Arrived => 11
    case Reading => 10
    case Searching => 9
    case Missed => 8
    case Elected(_) => 7
    case Forwarding(_) => 6
    case Storing(_, _, _) => 5
    case Publishing(_, _) => 4
    case Removing(_, _) => 3
    case Closing(_, _) => 2
    case Hitting(_, _) => 2
    case Waiting(_) => 2
    case Counting(_, _) => 1
    case Waking(_, _) => 1
    case Done(_) => 0
  }

  function Ranks(pcs: seq<Pc>): (r: seq<nat>)
    ensures |r| == |pcs|
  {
    seq(|pcs|, i requires 0 <= i < |pcs| => Rank(pcs[i]))
  }

  lemma {:induction false} SumLess(xs: seq<nat>, ys: seq<nat>, i: nat)
    requires |xs| == |ys| && i < |xs| && xs[i] < ys[i]
    requires forall k :: 0 <= k < |xs| && k != i ==> xs[k] == ys[k]
    ensures Sum(xs) < Sum(ys)
    decreases |xs|
  {
    var n := |xs| - 1;
    if i < n { SumLess(xs[..n], ys[..n], i); } else { assert xs[..n] == ys[..n]; }
  }

  lemma ActRank(env: Env, i: nat, pc: Pc, g: Shared, act: Act)
    requires i < |env.reqs| && InRange(pc, g) && Possible(env, i, pc, g, act)
    ensures Rank(Perform(env, i, pc, g, act).0) < Rank(pc)
  {
  }

  function CallSteps(steps: seq<Step>): nat {
    if steps == [] then 0 else (if steps[0].Call? then 1 else 0) + CallSteps(steps[1..])
  }

  /** However the calls interleave, every step of a call uses up some of its rank. */
  lemma {:induction false} CallsAreFinite(env: Env, s: State, steps: seq<Step>, end: State)
    requires IsRun(env, s, steps, end)
    ensures CallSteps(steps) + Sum(Ranks(end.pcs)) <= Sum(Ranks(s.pcs))
    decreases |steps|
  {
    if steps != [] {
      var t := Next(env, s, steps[0]);
      if steps[0].Call? {
        var i := steps[0].i;
        ActRank(env, i, s.pcs[i], s.shared, steps[0].act);
        assert Ranks(t.pcs)[i] < Ranks(s.pcs)[i];
        SumLess(Ranks(t.pcs), Ranks(s.pcs), i);
      }
      CallsAreFinite(env, t, steps[1..], end);
    }
  }

  lemma {:induction false} RankBound(pcs: seq<Pc>)
    ensures Sum(Ranks(pcs)) <= 11 * |pcs|
  {
    if pcs != [] {
      assert Ranks(pcs)[..|pcs| - 1] == Ranks(pcs[..|pcs| - 1]);
      RankBound(pcs[..|pcs| - 1]);
    }
  }

  /** The act of a call that depends on nobody else; a search may always fail. */
  function Own(pc: Pc): Act {
    match pc
    case Arrived => Gate(true)
    case Reading => Read(true)
    case Searching => Act.Search(true, None)
    case Hitting(_, _) => Note
    case Counting(_, _) => Count(true)
    case Elected(_) => Begin
    case Forwarding(_) => Return(Panic(""))
    case Storing(_, _, _) => Put(Written)
    case Publishing(_, _) => Publish
    case Removing(_, _) => Remove
    case Closing(_, _) => Close
    case Waiting(_) => Cancel
    case Waking(_, _) => Report
    case _ => Acquire
  }

  lemma OwnIsPossible(env: Env, i: nat, pc: Pc, g: Shared)
    requires i < |env.reqs| && InRange(pc, g) && !pc.Done? && !pc.Missed?
    ensures Possible(env, i, pc, g, Own(pc))
  {
  }

  /** No call is ever stuck: if it is not done it can move without being cancelled, or it waits
      for a leader that can. */
  lemma SomeoneCanMove(env: Env, s: State, i: nat) returns (k: nat, act: Act)
    requires Inv(env, s) && i < |s.pcs| && !s.pcs[i].Done?
    ensures CanStep(env, s, Call(k, act)) && !act.Cancel?
    ensures k == i || (s.pcs[i].Waiting? && C.Owns(RoleOf(s.pcs[k])) && HandleOf(s.pcs[k]) == Some(s.pcs[i].h))
  {
    var p := Protocol(env, s);
    C.InvWellFormed(p);
    assert p.roles[i] == RoleOf(s.pcs[i]);
    if s.pcs[i].Missed? {
      k, act := i, if env.Pol(i).Coalesces() then Acquire else Begin;
    } else if !s.pcs[i].Waiting? {
      k, act := i, Own(s.pcs[i]);
      OwnIsPossible(env, i, s.pcs[i], s.shared);
    } else {
      var h := s.pcs[i].h;
      C.ClosedIffReleased(p, h);
      assert C.HandleOk(p, h);
      k := s.shared.table.handles[h].owner;
      if s.pcs[k].Done? {
        k, act := i, Wake;
      } else {
        act := Own(s.pcs[k]);
        OwnIsPossible(env, k, s.pcs[k], s.shared);
      }
    }
  }

  ghost predicate Stuck(env: Env, s: State) {
    forall i, act :: !CanStep(env, s, Call(i, act))
  }

  /** However many calls there are and however they interleave with time, compaction and deletes,
      they take at most eleven steps each, and when none of them can step all are done. */
  lemma EveryCallEnds(env: Env, s: State, steps: seq<Step>, end: State)
    requires IsStart(env, s) && IsRun(env, s, steps, end)
    ensures CallSteps(steps) <= 11 * |env.reqs|
    ensures Stuck(env, end) ==> Quiescent(end)
  {
    CallsAreFinite(env, s, steps, end);
    RankBound(s.pcs);
    EveryRunKeepsInv(env, s, steps, end);
    if Stuck(env, end) {
      forall i | 0 <= i < |end.pcs| ensures end.pcs[i].Done? {
        if !end.pcs[i].Done? { var k, act := SomeoneCanMove(env, end, i); }
      }
    }
  }

  // ---- the audit log

  function Decisions(audit: seq<Record>, d: C.Decision): nat {
    if audit == [] then 0
    else Decisions(audit[..|audit| - 1], d) + if audit[|audit| - 1].decision == d then 1 else 0
  }

  function Sum(xs: seq<nat>): nat { if xs == [] then 0 else Sum(xs[..|xs| - 1]) + xs[|xs| - 1] }

  lemma {:induction false} SumPointwise(xs: seq<nat>, ys: seq<nat>, zs: seq<nat>)
    requires |xs| == |ys| == |zs| && forall i :: 0 <= i < |zs| ==> zs[i] == xs[i] + ys[i]
    ensures Sum(zs) == Sum(xs) + Sum(ys)
    decreases |zs|
  {
    if zs != [] {
      SumPointwise(xs[..|xs| - 1], ys[..|ys| - 1], zs[..|zs| - 1]);
    }
  }

  lemma {:induction false} SumsAgree(ws: seq<nat>, xs: seq<nat>, ys: seq<nat>, zs: seq<nat>)
    requires |ws| == |xs| == |ys| == |zs| && forall i :: 0 <= i < |zs| ==> ws[i] + xs[i] == ys[i] + zs[i]
    ensures Sum(ws) + Sum(xs) == Sum(ys) + Sum(zs)
    decreases |zs|
  {
    if zs != [] {
      SumsAgree(ws[..|ws| - 1], xs[..|xs| - 1], ys[..|ys| - 1], zs[..|zs| - 1]);
    }
  }

  /** One at `c`, nothing elsewhere. */
  function Unit(n: nat, c: nat): (r: seq<nat>)
    ensures |r| == n
  {
    seq(n, i requires 0 <= i < n => if i == c then 1 else 0)
  }

  lemma {:induction false} SumUnit(n: nat, c: nat)
    ensures Sum(Unit(n, c)) == if c < n then 1 else 0
  {
    if n > 0 {
      assert Unit(n, c)[..n - 1] == Unit(n - 1, c);
      SumUnit(n - 1, c);
    }
  }

  lemma {:induction false} SumZero(xs: seq<nat>)
    requires forall i :: 0 <= i < |xs| ==> xs[i] == 0
    ensures Sum(xs) == 0
  {
    if xs != [] { SumZero(xs[..|xs| - 1]); }
  }

  function PerCall(audit: seq<Record>, n: nat, d: C.Decision): (r: seq<nat>)
    ensures |r| == n
  {
    seq(n, i requires 0 <= i < n => Decisions(Of(audit, i), d))
  }

  lemma DecisionsAppend(audit: seq<Record>, r: Record, d: C.Decision)
    ensures Decisions(audit + [r], d) == Decisions(audit, d) + if r.decision == d then 1 else 0
  {
    assert (audit + [r])[..|audit|] == audit;
  }

  /** The records of a kind are the records of that kind of all the calls. */
  lemma {:induction false} DecisionsByCall(audit: seq<Record>, n: nat, d: C.Decision)
    requires forall k :: 0 <= k < |audit| ==> audit[k].call < n
    ensures Decisions(audit, d) == Sum(PerCall(audit, n, d))
    decreases |audit|
  {
    if audit == [] {
      SumZero(PerCall(audit, n, d));
    } else {
      var rest, r := audit[..|audit| - 1], audit[|audit| - 1];
      DecisionsByCall(rest, n, d);
      assert audit == rest + [r];
      forall i | 0 <= i < n
        ensures PerCall(audit, n, d)[i]
             == PerCall(rest, n, d)[i] + if r.decision == d && i == r.call then 1 else 0
      {
        OfAppend(rest, r, i);
        DecisionsAppend(Of(rest, i), r, d);
      }
      if r.decision == d {
        SumUnit(n, r.call);
        SumPointwise(PerCall(rest, n, d), Unit(n, r.call), PerCall(audit, n, d));
      } else {
        assert PerCall(audit, n, d) == PerCall(rest, n, d);
      }
    }
  }

  function Tallies(xs: seq<nat>, n: nat): (r: seq<nat>)
    ensures |r| == n
  {
    seq(n, i requires 0 <= i < n => Tally(xs, i))
  }

  lemma {:induction false} LengthByCall(xs: seq<nat>, n: nat)
    requires forall k :: 0 <= k < |xs| ==> xs[k] < n
    ensures |xs| == Sum(Tallies(xs, n))
    decreases |xs|
  {
    if xs == [] {
      SumZero(Tallies(xs, n));
    } else {
      var rest, x := xs[..|xs| - 1], xs[|xs| - 1];
      LengthByCall(rest, n);
      SumUnit(n, x);
      SumPointwise(Tallies(rest, n), Unit(n, x), Tallies(xs, n));
    }
  }

  /** How many calls satisfy a condition, as a sum of zeros and ones. */
  function Ones(pcs: seq<Pc>, p: Pc -> bool): (r: seq<nat>)
    ensures |r| == |pcs|
  {
    seq(|pcs|, i requires 0 <= i < |pcs| => if p(pcs[i]) then 1 else 0)
  }

  function HowMany(pcs: seq<Pc>, p: Pc -> bool): nat { Sum(Ones(pcs, p)) }

  function OffOnes(env: Env): (r: seq<nat>)
    ensures |r| == |env.reqs|
  {
    seq(|env.reqs|, i requires 0 <= i < |env.reqs| => if env.Pol(i).mode == Off then 1 else 0)
  }

  function OffCalls(env: Env): nat { Sum(OffOnes(env)) }

  predicate ReplayedFromStore(pc: Pc) { pc.Done? && pc.exit.Replayed? }
  predicate SharedLeaders(pc: Pc) { pc.Done? && pc.exit.Joined? && pc.exit.verdict.Shared? }
  predicate WaitedInVain(pc: Pc) { pc.Done? && pc.exit.Joined? && !pc.exit.verdict.Shared? }

  ghost predicate Quiescent(s: State) { forall i :: 0 <= i < |s.pcs| ==> s.pcs[i].Done? }

  /** What the balance needs to know of an exit. */
  predicate Accountable(env: Env, i: nat, exit: Exit)
    requires i < |env.reqs|
  {
    && (env.Pol(i).mode == Off ==> exit.Direct?)
    && (exit.Refused? ==> exit.decision == C.Forbidden || exit.decision == C.RateLimited)
    && (exit.Joined? ==> VerdictOk(exit.verdict))
  }

  lemma ExitIsAccountable(env: Env, i: nat, exit: Exit, log: seq<Delivery>)
    requires i < |env.reqs| && ExitOk(env, i, exit, log)
    ensures Accountable(env, i, exit)
  {
  }

  lemma ExitRecords(env: Env, i: nat, exit: Exit)
    requires i < |env.reqs| && Accountable(env, i, exit)
    ensures var w, pc := Wrote(env, i, Done(exit)), Done(exit);
      && |w| == (if env.Pol(i).mode == Off || exit.Rejected? then 0 else 1)
      && (|w| == 1 ==>
            && (w[0].decision == C.Forward <==> Invocations(pc) == 1 || WaitedInVain(pc))
            && (w[0].decision == C.Replay <==> ReplayedFromStore(pc) || SharedLeaders(pc)))
  {
  }

  lemma DecisionsOfOne(w: seq<Record>, d: C.Decision)
    requires |w| <= 1
    ensures Decisions(w, d) == if |w| == 1 && w[0].decision == d then 1 else 0
  {
    if |w| == 1 { assert w[..0] == []; }
  }

  lemma DoneCall(env: Env, s: State, i: nat)
    requires Inv(env, s) && i < |s.pcs| && s.pcs[i].Done?
    ensures Decisions(Of(s.shared.audit, i), C.Forward) + (if env.Pol(i).mode == Off then 1 else 0)
         == Tally(s.shared.invoked, i) + (if WaitedInVain(s.pcs[i]) then 1 else 0)
    ensures Decisions(Of(s.shared.audit, i), C.Replay)
         == (if ReplayedFromStore(s.pcs[i]) then 1 else 0) + (if SharedLeaders(s.pcs[i]) then 1 else 0)
    ensures |Of(s.shared.audit, i)| == if env.Pol(i).mode == Off || s.pcs[i].exit.Rejected? then 0 else 1
  {
    assert CallOk(env, i, s.pcs[i], s.shared);
    var exit := s.pcs[i].exit;
    ExitIsAccountable(env, i, exit, s.shared.log);
    ExitRecords(env, i, exit);
    DecisionsOfOne(Wrote(env, i, Done(exit)), C.Forward);
    DecisionsOfOne(Wrote(env, i, Done(exit)), C.Replay);
  }

  /** When all calls are done: "forward" records, and the calls of tools in off mode, which leave
      none, match the invocations of upstream and the waiters whose leader failed or who gave up. */
  lemma ForwardRecordsBalance(env: Env, s: State)
    requires Inv(env, s) && Quiescent(s)
    ensures Decisions(s.shared.audit, C.Forward) + OffCalls(env) == |s.shared.invoked| + HowMany(s.pcs, WaitedInVain)
  {
    var n, g := |env.reqs|, s.shared;
    DecisionsByCall(g.audit, n, C.Forward);
    LengthByCall(g.invoked, n);
    forall i | 0 <= i < n
      ensures PerCall(g.audit, n, C.Forward)[i] + OffOnes(env)[i]
           == Tallies(g.invoked, n)[i] + Ones(s.pcs, WaitedInVain)[i]
    {
      DoneCall(env, s, i);
    }
    SumsAgree(PerCall(g.audit, n, C.Forward), OffOnes(env), Tallies(g.invoked, n), Ones(s.pcs, WaitedInVain));
  }

  /** "replay" records match the replays from the store and the waiters that were served. */
  lemma ReplayRecordsBalance(env: Env, s: State)
    requires Inv(env, s) && Quiescent(s)
    ensures Decisions(s.shared.audit, C.Replay) == HowMany(s.pcs, ReplayedFromStore) + HowMany(s.pcs, SharedLeaders)
  {
    var n, g := |env.reqs|, s.shared;
    DecisionsByCall(g.audit, n, C.Replay);
    forall i | 0 <= i < n
      ensures PerCall(g.audit, n, C.Replay)[i] == Ones(s.pcs, ReplayedFromStore)[i] + Ones(s.pcs, SharedLeaders)[i]
    {
      DoneCall(env, s, i);
    }
    SumPointwise(Ones(s.pcs, ReplayedFromStore), Ones(s.pcs, SharedLeaders), PerCall(g.audit, n, C.Replay));
  }

  /** Every call leaves exactly one record, except in off mode and when its body is rejected, and
      invokes upstream at most once. */
  lemma OneRecordPerCall(env: Env, s: State, i: nat)
    requires Inv(env, s) && i < |s.pcs|
    ensures s.pcs[i].Done? ==>
      |Of(s.shared.audit, i)| == if env.Pol(i).mode == Off || s.pcs[i].exit.Rejected? then 0 else 1
    ensures |Of(s.shared.audit, i)| <= 1 && Tally(s.shared.invoked, i) <= 1
  {
    assert CallOk(env, i, s.pcs[i], s.shared);
    WroteOwn(env, i, s.pcs[i]);
    if s.pcs[i].Done? { DoneCall(env, s, i); }
  }
}
