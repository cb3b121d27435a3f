/** Exactly when a duplicate is forwarded again, and exactly when a call waits for another one,
    with runs that show both. */
module PipelineSharing {
  import opened Outcomes
  import opened Policy
  import opened Pipeline
  import opened PipelineRuns
  import opened PipelineLaws
  import C = Coalescing
  import Store
  import Search
  import Embed

  // ---- building runs

  lemma {:induction false} RunSnoc(env: Env, s: State, steps: seq<Step>, m: State, step: Step)
    requires IsRun(env, s, steps, m) && CanStep(env, m, step)
    ensures IsRun(env, s, steps + [step], Next(env, m, step))
    decreases |steps|
  {
    if steps == [] {
      assert IsRun(env, Next(env, m, step), [], Next(env, m, step));
      assert ([] + [step])[1..] == [];
    } else {
      RunSnoc(env, Next(env, s, steps[0]), steps[1..], m, step);
      assert (steps + [step])[1..] == steps[1..] + [step];
    }
  }

  /** Calls step, and none of them reads the store. */
  predicate ReadFree(steps: seq<Step>) {
    forall k :: 0 <= k < |steps| ==> steps[k].Call? && !steps[k].act.Read?
  }

  lemma Go(env: Env, s: State, steps: seq<Step>, m: State, i: nat, act: Act) returns (more: seq<Step>, t: State)
    requires IsRun(env, s, steps, m) && CanStep(env, m, Call(i, act))
    ensures IsRun(env, s, more, t)
    ensures ReadFree(steps) && !act.Read? ==> ReadFree(more)
    ensures t == State(m.pcs[i := Perform(env, i, m.pcs[i], m.shared, act).0], Perform(env, i, m.pcs[i], m.shared, act).1)
  {
    more, t := steps + [Call(i, act)], Next(env, m, Call(i, act));
    RunSnoc(env, s, steps, m, Call(i, act));
  }

  /** The call gets past the gates of its tool, which is in strict or cache mode. */
  predicate Passes(env: Env, i: nat)
    requires i < |env.reqs|
  {
    env.Pol(i).Coalesces() && env.Pol(i).AllowsCaller(env.reqs[i].caller) && env.Analysed(i).Some?
  }

  lemma SearchInVain(env: Env, s0: State, steps: seq<Step>, s: State, i: nat) returns (more: seq<Step>, end: State)
    requires IsRun(env, s0, steps, s) && |s.pcs| == |env.reqs| && i < |s.pcs|
    requires s.pcs[i].Searching? || s.pcs[i].Missed?
    ensures IsRun(env, s0, more, end) && end == s.(pcs := s.pcs[i := Missed])
    ensures ReadFree(steps) ==> ReadFree(more)
  {
    if s.pcs[i].Searching? {
      more, end := Go(env, s0, steps, s, i, Act.Search(true, None));
    } else {
      more, end := steps, s;
      assert s.pcs[i := Missed] == s.pcs;
    }
  }

  /** On an empty store a call misses. */
  lemma Misses(env: Env, s0: State, steps: seq<Step>, s: State, i: nat) returns (more: seq<Step>, end: State)
    requires IsRun(env, s0, steps, s) && |s.pcs| == |env.reqs| && i < |s.pcs|
    requires s.pcs[i] == Arrived && s.shared.tab == map[] && Passes(env, i)
    ensures IsRun(env, s0, more, end) && end == s.(pcs := s.pcs[i := Missed])
  {
    more, end := Go(env, s0, steps, s, i, Gate(true));
    assert end == s.(pcs := s.pcs[i := Reading]);
    more, end := Go(env, s0, more, end, i, Read(true));
    assert Store.AfterGet(s.shared.tab, s.shared.now, env.Key(i)) == s.shared.tab;
    more, end := SearchInVain(env, s0, more, end, i);
    assert end.pcs == s.pcs[i := Missed];
  }

  lemma ForwardAlone(env: Env, s0: State, steps: seq<Step>, s: State, j: nat) returns (more: seq<Step>, end: State)
    requires IsRun(env, s0, steps, s) && |s.pcs| == |env.reqs| && j < |s.pcs|
    requires s.pcs[j] == Missed && env.Pol(j).Coalesces() && env.Hash(j) !in s.shared.table.inflight
    ensures IsRun(env, s0, more, end)
    ensures ReadFree(steps) ==> ReadFree(more)
    ensures end.pcs == s.pcs[j := Forwarding(Some(|s.shared.table.handles|))]
    ensures end.shared.tab == s.shared.tab && end.shared.now == s.shared.now
    ensures end.shared.table == C.Acquired(s.shared.table, env.Hash(j), j)
  {
    more, end := Go(env, s0, steps, s, j, Acquire);
    assert end.pcs[j] == Elected(|s.shared.table.handles|);
    more, end := Go(env, s0, more, end, j, Begin);
  }

  lemma Deliver(env: Env, s0: State, steps: seq<Step>, s: State, i: nat, h: nat, status: int, body: string)
    returns (more: seq<Step>, end: State)
    requires IsRun(env, s0, steps, s) && |s.pcs| == |env.reqs| && i < |s.pcs| && h < |s.shared.table.handles|
    requires s.pcs[i] == Forwarding(Some(h)) && Success(status)
    ensures IsRun(env, s0, more, end)
    ensures end.pcs == s.pcs[i := Storing(h, status, body)]
    ensures end.shared == s.shared.(log := s.shared.log + [Delivery(env.Tool(i), status, body)])
  {
    more, end := Go(env, s0, steps, s, i, Return(Delivered(status, body)));
  }

  lemma CacheIt(env: Env, s0: State, steps: seq<Step>, s: State, i: nat) returns (more: seq<Step>, end: State)
    requires IsRun(env, s0, steps, s) && |s.pcs| == |env.reqs| && i < |s.pcs| && s.pcs[i].Storing?
    requires s.pcs[i].h < |s.shared.table.handles|
    ensures IsRun(env, s0, more, end)
    ensures end.pcs == s.pcs[i := Publishing(s.pcs[i].h, C.Fresh(ForwardResult(env, i, s.pcs[i].status, s.pcs[i].body)))]
    ensures end.shared == s.shared.(tab :=
      Store.AfterPut(s.shared.tab, s.shared.now, BuildEntry(env, i, s.shared.now, s.pcs[i].status, s.pcs[i].body)))
  {
    more, end := Go(env, s0, steps, s, i, Put(Written));
  }

  /** The leader publishes and leaves the map. */
  lemma Leave(env: Env, s0: State, steps: seq<Step>, s: State, i: nat) returns (more: seq<Step>, end: State)
    requires IsRun(env, s0, steps, s) && |s.pcs| == |env.reqs| && i < |s.pcs| && s.pcs[i].Publishing?
    requires s.pcs[i].h < |s.shared.table.handles|
    requires env.Hash(i) in s.shared.table.inflight && s.shared.table.inflight[env.Hash(i)] == s.pcs[i].h
    ensures IsRun(env, s0, more, end)
    ensures ReadFree(steps) ==> ReadFree(more)
    ensures end.pcs == s.pcs[i := Closing(s.pcs[i].h, s.pcs[i].ending)]
    ensures env.Hash(i) !in end.shared.table.inflight && |end.shared.table.handles| == |s.shared.table.handles|
    ensures end.shared.tab == s.shared.tab && end.shared.now == s.shared.now && end.shared.log == s.shared.log
  {
    more, end := Go(env, s0, steps, s, i, Publish);
    assert end.pcs == s.pcs[i := Removing(s.pcs[i].h, s.pcs[i].ending)];
    more, end := Go(env, s0, more, end, i, Remove);
  }

  /** A call that missed leads and is answered. */
  lemma LeadAndDeliver(env: Env, s0: State, steps: seq<Step>, s: State, i: nat, status: int, body: string)
    returns (more: seq<Step>, end: State)
    requires IsRun(env, s0, steps, s) && |s.pcs| == |env.reqs| && i < |s.pcs|
    requires s.pcs[i] == Missed && env.Pol(i).Coalesces() && env.Hash(i) !in s.shared.table.inflight && Success(status)
    ensures IsRun(env, s0, more, end)
    ensures end.pcs == s.pcs[i := Storing(|s.shared.table.handles|, status, body)]
    ensures |end.shared.table.handles| == |s.shared.table.handles| + 1
  {
    more, end := ForwardAlone(env, s0, steps, s, i);
    var forwarding := end;
    more, end := Deliver(env, s0, more, end, i, |s.shared.table.handles|, status, body);
    assert end.pcs == forwarding.pcs[i := Storing(|s.shared.table.handles|, status, body)];
  }

  /** A call that is searching or has missed forwards if nobody is in its way. */
  lemma SearchAndForward(env: Env, s0: State, steps: seq<Step>, s: State, j: nat) returns (more: seq<Step>, end: State)
    requires IsRun(env, s0, steps, s) && |s.pcs| == |env.reqs| && j < |s.pcs|
    requires s.pcs[j].Searching? || s.pcs[j].Missed?
    requires env.Pol(j).Coalesces() && env.Hash(j) !in s.shared.table.inflight
    ensures IsRun(env, s0, more, end) && |end.pcs| == |s.pcs| && end.pcs[j].Forwarding?
    ensures ReadFree(steps) ==> ReadFree(more)
    ensures end.shared.now == s.shared.now
  {
    more, end := SearchInVain(env, s0, steps, s, j);
    more, end := ForwardAlone(env, s0, more, end, j);
  }

  /** ... and closes its handle. */
  lemma Finish(env: Env, s0: State, steps: seq<Step>, s: State, i: nat) returns (more: seq<Step>, end: State)
    requires IsRun(env, s0, steps, s) && |s.pcs| == |env.reqs| && i < |s.pcs| && s.pcs[i].Publishing?
    requires s.pcs[i].h < |s.shared.table.handles|
    requires env.Hash(i) in s.shared.table.inflight && s.shared.table.inflight[env.Hash(i)] == s.pcs[i].h
    ensures IsRun(env, s0, more, end)
    ensures end.pcs == s.pcs[i := Done(Led(s.pcs[i].h, s.pcs[i].ending))]
    ensures |end.shared.table.handles| == |s.shared.table.handles| && end.shared.log == s.shared.log
  {
    more, end := Leave(env, s0, steps, s, i);
    var closing := end;
    more, end := Go(env, s0, more, end, i, Close);
    assert end.pcs == closing.pcs[i := Done(Led(s.pcs[i].h, s.pcs[i].ending))];
  }

  /** Two calls miss one after the other. */
  lemma BothMiss(env: Env, s: State, i: nat, j: nat) returns (steps: seq<Step>, end: State)
    requires IsStart(env, s) && i < |s.pcs| && j < |s.pcs| && i != j && Passes(env, i) && Passes(env, j)
    ensures IsRun(env, s, steps, end) && |end.pcs| == |s.pcs| && end.pcs[i] == end.pcs[j] == Missed
    ensures end.shared == s.shared
  {
    steps, end := Misses(env, s, [], s, i);
    steps, end := Misses(env, s, steps, end, j);
  }

  // ---- forwarding again

  /** Done with upstream, or never to come to it. */
  predicate Past(pc: Pc) {
    pc.Waiting? || pc.Waking? || pc.Closing? || pc.Hitting? || pc.Counting? || pc.Done?
  }

  lemma PastStays(env: Env, i: nat, pc: Pc, g: Shared, act: Act)
    requires i < |env.reqs| && InRange(pc, g) && Possible(env, i, pc, g, act) && Past(pc)
    ensures Past(Perform(env, i, pc, g, act).0)
  {
  }

  lemma {:induction false} PastToTheEnd(env: Env, s: State, steps: seq<Step>, end: State, j: nat)
    requires IsRun(env, s, steps, end) && j < |s.pcs| && Past(s.pcs[j])
    ensures j < |end.pcs| && Past(end.pcs[j])
    decreases |steps|
  {
    if steps != [] {
      if steps[0].Call? && steps[0].i == j {
        PastStays(env, j, s.pcs[j], s.shared, steps[0].act);
      }
      PastToTheEnd(env, Next(env, s, steps[0]), steps[1..], end, j);
    }
  }

  /** From `s` the call `j` comes to forward while an entry created at `since` is alive, its own
      read does not fail and its key is not deleted. */
  ghost predicate ForwardsLate(env: Env, s: State, j: nat, since: int, steps: seq<Step>, end: State)
    requires j < |env.reqs|
  {
    && IsRun(env, s, steps, end) && j < |end.pcs| && end.pcs[j].Forwarding?
    && Call(j, Read(false)) !in steps && NeverForgets(steps, env.Key(j))
    && Within(env.Pol(j).ttl, since, end.shared.now)
  }

  /** Call `i` is about to cache a success that call `j` duplicates. */
  ghost predicate AboutToCache(env: Env, s: State, i: nat, j: nat) {
    && Inv(env, s) && CanStep(env, s, Call(i, Put(Written))) && j < |s.pcs| && i != j
    && env.Tool(j) == env.Tool(i) != "" && env.Hash(j) == env.Hash(i) != ""
  }

  lemma LeaderHolds(env: Env, s: State, i: nat)
    requires Inv(env, s) && i < |s.pcs| && s.pcs[i].Storing?
    ensures env.Pol(i).Coalesces() && s.pcs[i].h < |s.shared.table.handles|
    ensures env.Hash(i) in s.shared.table.inflight && s.shared.table.inflight[env.Hash(i)] == s.pcs[i].h
  {
    assert CallOk(env, i, s.pcs[i], s.shared);
    assert C.LeaderOk(Protocol(env, s), i);
  }

  /** A call that shares the fingerprint of a leader about to cache holds no handle itself. */
  lemma DuplicateHoldsNothing(env: Env, s: State, i: nat, j: nat)
    requires Inv(env, s) && i < |s.pcs| && j < |s.pcs| && i != j && s.pcs[i].Storing?
    requires env.Tool(i) == env.Tool(j) && env.Hash(i) == env.Hash(j)
    ensures NotYetRead(s.pcs[j]) || Past(s.pcs[j]) || s.pcs[j].Missed? || s.pcs[j].Searching?
  {
    LeaderHolds(env, s, i);
    assert CallOk(env, j, s.pcs[j], s.shared);
    if C.Holds(RoleOf(s.pcs[j])) { C.OneForwardPerHash(Protocol(env, s), i, j); }
  }

  lemma OnlyMissedForwards(env: Env, s: State, i: nat, j: nat, steps: seq<Step>, end: State)
    requires AboutToCache(env, s, i, j) && DistinctKeys(env)
    requires ForwardsLate(env, Next(env, s, Call(i, Put(Written))), j, s.shared.now, steps, end)
    ensures s.pcs[j].Missed? || s.pcs[j].Searching?
  {
    DuplicateHoldsNothing(env, s, i, j);
    if NotYetRead(s.pcs[j]) {
      NoForwardWithinTtl(env, s, i, steps, end, j);
    } else if Past(s.pcs[j]) {
      PastToTheEnd(env, Next(env, s, Call(i, Put(Written))), steps, end, j);
    }
  }

  /** After the Put the leader is about to publish, and nothing else has changed for the others. */
  lemma AfterCaching(env: Env, s: State, i: nat)
    requires Inv(env, s) && CanStep(env, s, Call(i, Put(Written)))
    ensures var t := Next(env, s, Call(i, Put(Written)));
      && t.pcs[i].Publishing? && t.pcs[i].h == s.pcs[i].h && t.shared.table == s.shared.table
      && |t.pcs| == |s.pcs| && t.shared.now == s.shared.now
      && forall j :: 0 <= j < |s.pcs| && j != i ==> t.pcs[j] == s.pcs[j]
    ensures env.Pol(i).Coalesces() && s.pcs[i].h < |s.shared.table.handles|
    ensures env.Hash(i) in s.shared.table.inflight && s.shared.table.inflight[env.Hash(i)] == s.pcs[i].h
  {
    LeaderHolds(env, s, i);
  }

  /** The leader leaves and `j` takes its place. */
  lemma LeaveAndForward(env: Env, t: State, i: nat, j: nat) returns (steps: seq<Step>, end: State)
    requires |t.pcs| == |env.reqs| && i < |t.pcs| && j < |t.pcs| && i != j && env.Hash(i) == env.Hash(j)
    requires t.pcs[i].Publishing? && t.pcs[i].h < |t.shared.table.handles| && env.Pol(j).Coalesces()
    requires env.Hash(i) in t.shared.table.inflight && t.shared.table.inflight[env.Hash(i)] == t.pcs[i].h
    requires t.pcs[j].Missed? || t.pcs[j].Searching?
    ensures IsRun(env, t, steps, end) && ReadFree(steps) && |end.pcs| == |t.pcs| && end.pcs[j].Forwarding?
    ensures end.shared.now == t.shared.now
  {
    steps, end := Leave(env, t, [], t, i);
    steps, end := SearchAndForward(env, t, steps, end, j);
  }

  lemma LateRun(env: Env, s: State, i: nat, j: nat) returns (steps: seq<Step>, end: State)
    requires AboutToCache(env, s, i, j) && (s.pcs[j].Missed? || s.pcs[j].Searching?)
    ensures IsRun(env, Next(env, s, Call(i, Put(Written))), steps, end)
    ensures ReadFree(steps) && j < |end.pcs| && end.pcs[j].Forwarding? && end.shared.now == s.shared.now
  {
    AfterCaching(env, s, i);
    steps, end := LeaveAndForward(env, Next(env, s, Call(i, Put(Written))), i, j);
  }

  /** "One forward ever" holds exactly for duplicates that have not yet missed.  When a success is
      cached, another call of the same tool and fingerprint can still come to forward, while the
      entry is alive, with a working store and without deletes, if and only if at that moment it
      has already missed in the store.  (With a negative time to live no entry is ever alive.) */
  lemma ForwardsAgainIff(env: Env, s: State, i: nat, j: nat)
    requires AboutToCache(env, s, i, j) && DistinctKeys(env)
    ensures (exists steps, end :: ForwardsLate(env, Next(env, s, Call(i, Put(Written))), j, s.shared.now, steps, end))
            <==> (s.pcs[j].Missed? || s.pcs[j].Searching?) && env.Pol(j).ttl >= 0
  {
    var t := Next(env, s, Call(i, Put(Written)));
    forall steps, end | ForwardsLate(env, t, j, s.shared.now, steps, end)
      ensures (s.pcs[j].Missed? || s.pcs[j].Searching?) && env.Pol(j).ttl >= 0
    {
      OnlyMissedForwards(env, s, i, j, steps, end);
      ClockMonotone(env, s, Call(i, Put(Written)));
      ClockMonotoneRun(env, t, steps, end);
    }
    if (s.pcs[j].Missed? || s.pcs[j].Searching?) && env.Pol(j).ttl >= 0 {
      var steps, end := LateRun(env, s, i, j);
      assert ForwardsLate(env, t, j, s.shared.now, steps, end);
    }
  }

  /** Such a moment is reached from the start: two identical calls both miss, the first is
      answered, and stands before caching the answer. */
  lemma BothMissFromStart(env: Env, s: State, i: nat, j: nat, status: int, body: string)
    returns (steps: seq<Step>, end: State)
    requires IsStart(env, s) && i < |s.pcs| && j < |s.pcs| && i != j && Passes(env, i) && Passes(env, j)
    requires env.Tool(i) == env.Tool(j) != "" && env.Hash(i) == env.Hash(j) != "" && Success(status)
    ensures IsRun(env, s, steps, end) && AboutToCache(env, end, i, j) && end.pcs[j] == Missed
  {
    steps, end := BothMiss(env, s, i, j);
    steps, end := LeadAndDeliver(env, s, steps, end, i, status, body);
    EveryRunKeepsInv(env, s, steps, end);
  }

  /** So from the start of any system with two identical strict or cache calls there is a run in
      which upstream is invoked for both, the second time with a live entry in the store. */
  lemma LateSiblingForwardsAgain(env: Env, s: State, i: nat, j: nat, status: int, body: string)
    returns (steps: seq<Step>, end: State)
    requires IsStart(env, s) && i < |s.pcs| && j < |s.pcs| && i != j && Passes(env, i) && Passes(env, j)
    requires env.Tool(i) == env.Tool(j) != "" && env.Hash(i) == env.Hash(j) != "" && Success(status)
    requires env.Pol(i).ttl >= 0
    ensures IsRun(env, s, steps, end) && |end.pcs| == |s.pcs|
    ensures Invocations(end.pcs[i]) == 1 && end.pcs[j].Forwarding?
    ensures Store.Lookup(end.shared.tab, end.shared.now, env.Key(j)).Some?
  {
    steps, end := BothMissFromStart(env, s, i, j, status, body);
    LeaderHolds(env, end, i);
    steps, end := CacheAndYield(env, s, steps, end, i, j);
  }

  /** The leader caches and leaves, and the sibling forwards with the entry in the store. */
  lemma CacheAndYield(env: Env, s0: State, steps: seq<Step>, s: State, i: nat, j: nat) returns (more: seq<Step>, end: State)
    requires IsRun(env, s0, steps, s) && |s.pcs| == |env.reqs| && i < |s.pcs| && j < |s.pcs| && i != j
    requires s.pcs[i].Storing? && s.pcs[j] == Missed && env.Pol(j).Coalesces() && s.pcs[i].h < |s.shared.table.handles|
    requires env.Hash(i) in s.shared.table.inflight && s.shared.table.inflight[env.Hash(i)] == s.pcs[i].h
    requires env.Tool(i) == env.Tool(j) != "" && env.Hash(i) == env.Hash(j) != "" && env.Pol(i).ttl >= 0
    ensures IsRun(env, s0, more, end) && |end.pcs| == |s.pcs|
    ensures Invocations(end.pcs[i]) == 1 && end.pcs[j].Forwarding?
    ensures Store.Lookup(end.shared.tab, end.shared.now, env.Key(j)).Some?
  {
    more, end := CacheIt(env, s0, steps, s, i);
    more, end := Leave(env, s0, more, end, i);
    more, end := ForwardAlone(env, s0, more, end, j);
  }

  // ---- waiting for another call

  /** A strict or cache call that missed waits exactly when some call with its fingerprint, of
      whatever tool and policy, is between acquiring and leaving the map; it waits for that one. */
  lemma WaitsIff(env: Env, s: State, j: nat)
    requires Inv(env, s) && j < |s.pcs| && s.pcs[j] == Missed && env.Pol(j).Coalesces()
    ensures CanStep(env, s, Call(j, Acquire))
    ensures Next(env, s, Call(j, Acquire)).pcs[j].Waiting? <==>
      exists i :: 0 <= i < |s.pcs| && env.Hash(i) == env.Hash(j) && C.Holds(RoleOf(s.pcs[i]))
    ensures forall i :: 0 <= i < |s.pcs| && env.Hash(i) == env.Hash(j) && C.Holds(RoleOf(s.pcs[i])) ==>
      Next(env, s, Call(j, Acquire)).pcs[j] == Waiting(RoleOf(s.pcs[i]).h)
  {
    var p, hash := Protocol(env, s), env.Hash(j);
    if hash in s.shared.table.inflight {
      var i := C.HolderOf(p, hash);
      assert env.Hash(i) == hash && C.Holds(RoleOf(s.pcs[i]));
    }
    forall i | 0 <= i < |s.pcs| && env.Hash(i) == hash && C.Holds(RoleOf(s.pcs[i]))
      ensures hash in s.shared.table.inflight && s.shared.table.inflight[hash] == RoleOf(s.pcs[i]).h
    {
      assert C.LeaderOk(p, i);
    }
  }

  /** Both miss; `i` leads and `j` waits for it. */
  lemma OneLeadsOneWaits(env: Env, s: State, i: nat, j: nat) returns (steps: seq<Step>, end: State)
    requires IsStart(env, s) && i < |s.pcs| && j < |s.pcs| && i != j && Passes(env, i) && Passes(env, j)
    requires env.Hash(i) == env.Hash(j)
    ensures IsRun(env, s, steps, end) && |end.pcs| == |s.pcs| && |end.shared.table.handles| == 1
    ensures end.pcs[i] == Forwarding(Some(0)) && end.pcs[j] == Waiting(0)
  {
    steps, end := BothMiss(env, s, i, j);
    steps, end := ForwardAlone(env, s, steps, end, i);
    assert end.pcs[j] == Missed && env.Hash(j) in end.shared.table.inflight;
    steps, end := Go(env, s, steps, end, j, Acquire);
  }

  /** Upstream answers the leader, which caches, publishes and releases. */
  lemma LeaderFinishes(env: Env, s: State, steps: seq<Step>, m: State, i: nat, j: nat, status: int, body: string)
    returns (more: seq<Step>, end: State)
    requires IsStart(env, s) && IsRun(env, s, steps, m) && i < |s.pcs| && j < |s.pcs| && i != j && |m.pcs| == |s.pcs|
    requires |m.shared.table.handles| == 1 && m.pcs[i] == Forwarding(Some(0)) && m.pcs[j] == Waiting(0) && Success(status)
    ensures IsRun(env, s, more, end) && |end.pcs| == |s.pcs| && |end.shared.table.handles| == 1
    ensures end.pcs[i] == Done(Led(0, C.Fresh(ForwardResult(env, i, status, body)))) && end.pcs[j] == Waiting(0)
    ensures Delivery(env.Tool(i), status, body) in end.shared.log
  {
    more, end := Deliver(env, s, steps, m, i, 0, status, body);
    EveryRunKeepsInv(env, s, more, end);
    LeaderHolds(env, end, i);
    more, end := CacheIt(env, s, more, end, i);
    more, end := Finish(env, s, more, end, i);
  }

  lemma ReleasedHandle(env: Env, s: State, i: nat, h: nat, ending: C.Ending)
    requires Inv(env, s) && i < |s.pcs| && s.pcs[i] == Done(Led(h, ending))
    ensures h < |s.shared.table.handles| && s.shared.table.handles[h].closes == 1
    ensures C.ReadHandle(s.shared.table.handles[h]) == C.Told(ending)
  {
    assert C.LeaderOk(Protocol(env, s), i);
  }

  /** Two calls with one fingerprint, of whatever tools: in some run the second returns the body
      that upstream delivered for the first one's tool.  Nothing is asked of the second one's
      policy beyond strict or cache mode, so it may require confirmation of replays, or ask for
      acknowledgements only. */
  lemma WaiterReturnsStrangersBody(env: Env, s: State, i: nat, j: nat, status: int, body: string)
    returns (steps: seq<Step>, end: State, r: C.Result)
    requires IsStart(env, s) && i < |s.pcs| && j < |s.pcs| && i != j && Passes(env, i) && Passes(env, j)
    requires env.Hash(i) == env.Hash(j) && Success(status)
    ensures IsRun(env, s, steps, end) && |end.pcs| == |s.pcs| && end.pcs[j] == Done(Joined(0, C.Shared(r)))
    ensures end.pcs[i] == Done(Led(0, C.Fresh(ForwardResult(env, i, status, body))))
    ensures r.body == body && r.status == status && Delivery(env.Tool(i), status, body) in end.shared.log
  {
    steps, end := OneLeadsOneWaits(env, s, i, j);
    steps, end := LeaderFinishes(env, s, steps, end, i, j, status, body);
    EveryRunKeepsInv(env, s, steps, end);
    ReleasedHandle(env, end, i, 0, C.Fresh(ForwardResult(env, i, status, body)));
    steps, end, r := Joins(env, s, steps, end, j, ForwardResult(env, i, status, body));
  }

  lemma Joins(env: Env, s: State, steps: seq<Step>, m: State, j: nat, led: C.Result)
    returns (more: seq<Step>, end: State, r: C.Result)
    requires IsRun(env, s, steps, m) && |m.pcs| == |env.reqs| && j < |m.pcs| && m.pcs[j] == Waiting(0)
    requires 0 < |m.shared.table.handles| && m.shared.table.handles[0].closes == 1
    requires C.ReadHandle(m.shared.table.handles[0]) == C.Told(C.Fresh(led))
    ensures IsRun(env, s, more, end) && end.pcs == m.pcs[j := Done(Joined(0, C.Shared(r)))]
    ensures r.body == led.body && r.status == led.status && end.shared.log == m.shared.log
  {
    r := led.(decision := C.Replay, kind := C.Coalesced);
    more, end := Go(env, s, steps, m, j, Wake);
    var waking := end;
    assert waking.pcs == m.pcs[j := Waking(0, C.Shared(r))] && waking.shared == m.shared;
    more, end := Go(env, s, more, end, j, Report);
    assert waking.pcs[j := Done(Joined(0, C.Shared(r)))] == m.pcs[j := Done(Joined(0, C.Shared(r)))];
  }

  /** Call `i` led, and call `j` waited for it and returned what it was told. */
  ghost predicate Shares(env: Env, s: State, i: nat, j: nat, steps: seq<Step>, end: State) {
    && IsRun(env, s, steps, end) && i < |end.pcs| && j < |end.pcs|
    && end.pcs[i].Done? && end.pcs[i].exit.Led? && end.pcs[j].Done? && end.pcs[j].exit.Joined?
    && end.pcs[j].exit.verdict.Shared? && end.pcs[j].exit.h == end.pcs[i].exit.h
  }

  /** A call past its gates that was not refused, rejected or off had an allowed caller and a proper
      body. */
  predicate Admitted(env: Env, i: nat, pc: Pc)
    requires i < |env.reqs|
  {
    pc.Arrived? || env.Pol(i).mode == Off || (pc.Done? && (pc.exit.Refused? || pc.exit.Rejected?))
    || (env.Pol(i).AllowsCaller(env.reqs[i].caller) && env.Analysed(i).Some?)
  }

  lemma ActAdmitted(env: Env, i: nat, pc: Pc, g: Shared, act: Act)
    requires i < |env.reqs| && InRange(pc, g) && Possible(env, i, pc, g, act) && Admitted(env, i, pc)
    ensures Admitted(env, i, Perform(env, i, pc, g, act).0)
  {
  }

  lemma {:induction false} RunAdmitted(env: Env, s: State, steps: seq<Step>, end: State, i: nat)
    requires IsRun(env, s, steps, end) && |s.pcs| == |env.reqs| && i < |s.pcs| && Admitted(env, i, s.pcs[i])
    ensures i < |end.pcs| && Admitted(env, i, end.pcs[i])
    decreases |steps|
  {
    if steps != [] {
      if steps[0].Call? && steps[0].i == i { ActAdmitted(env, i, s.pcs[i], s.shared, steps[0].act); }
      RunAdmitted(env, Next(env, s, steps[0]), steps[1..], end, i);
    }
  }

  /** A call that led or joined was in strict or cache mode and passed its gates. */
  lemma LedOrJoinedPasses(env: Env, s: State, steps: seq<Step>, end: State, i: nat)
    requires IsStart(env, s) && IsRun(env, s, steps, end) && i < |end.pcs| == |s.pcs|
    requires end.pcs[i].Done? && (end.pcs[i].exit.Led? || end.pcs[i].exit.Joined?)
    ensures Passes(env, i)
  {
    EveryRunKeepsInv(env, s, steps, end);
    RunAdmitted(env, s, steps, end, i);
    assert CallOk(env, i, end.pcs[i], end.shared);
  }

  lemma SharersHaveOneHash(env: Env, s: State, i: nat, j: nat)
    requires Inv(env, s) && i < |s.pcs| && j < |s.pcs|
    requires s.pcs[i].Done? && s.pcs[i].exit.Led? && s.pcs[j].Done? && s.pcs[j].exit.Joined?
    requires s.pcs[j].exit.h == s.pcs[i].exit.h
    ensures env.Hash(i) == env.Hash(j)
  {
    var p := Protocol(env, s);
    assert C.LeaderOk(p, i) && C.WaiterOk(p, j);
    C.StageFixesHandle(p.table.handles[p.roles[i].h], i, p.roles[i]);
  }

  /** One call can be answered with the response to another exactly when they are two calls that
      pass their gates in strict or cache mode and have one fingerprint.  Tools, confirmation of
      replays and acknowledgements play no part. */
  lemma SharesIff(env: Env, s: State, i: nat, j: nat)
    requires IsStart(env, s) && i < |s.pcs| && j < |s.pcs|
    ensures (exists steps, end :: Shares(env, s, i, j, steps, end))
            <==> i != j && Passes(env, i) && Passes(env, j) && env.Hash(i) == env.Hash(j)
  {
    forall steps, end | Shares(env, s, i, j, steps, end)
      ensures i != j && Passes(env, i) && Passes(env, j) && env.Hash(i) == env.Hash(j)
    {
      SameCalls(env, s, steps, end);
      EveryRunKeepsInv(env, s, steps, end);
      LedOrJoinedPasses(env, s, steps, end, i);
      LedOrJoinedPasses(env, s, steps, end, j);
      SharersHaveOneHash(env, end, i, j);
    }
    if i != j && Passes(env, i) && Passes(env, j) && env.Hash(i) == env.Hash(j) {
      var steps, end, r := WaiterReturnsStrangersBody(env, s, i, j, 200, "");
      assert Shares(env, s, i, j, steps, end);
    }
  }

  /** So isolation of tools fails for exactly these inputs: two tools, one fingerprint. */
  lemma IsolationFailsIff(env: Env, s: State, i: nat, j: nat)
    requires IsStart(env, s) && i < |s.pcs| && j < |s.pcs|
    ensures (exists steps, end :: Shares(env, s, i, j, steps, end) && env.Tool(i) != env.Tool(j))
            <==> Passes(env, i) && Passes(env, j) && env.Hash(i) == env.Hash(j) && env.Tool(i) != env.Tool(j)
  {
    SharesIff(env, s, i, j);
  }

  /** And a call that requires confirmation of replays can be handed another call's response
      exactly when it and some other call pass their gates with one fingerprint. */
  lemma ConfirmationBypassedIff(env: Env, s: State, j: nat)
    requires IsStart(env, s) && j < |s.pcs| && env.Confirms(j)
    ensures (exists i: nat, steps, end :: Shares(env, s, i, j, steps, end))
            <==> exists i :: 0 <= i < |s.pcs| && i != j && Passes(env, i) && Passes(env, j) && env.Hash(i) == env.Hash(j)
  {
    forall i: nat, steps, end | Shares(env, s, i, j, steps, end)
      ensures 0 <= i < |s.pcs| && i != j && Passes(env, i) && Passes(env, j) && env.Hash(i) == env.Hash(j)
    {
      SameCalls(env, s, steps, end);
      SharesIff(env, s, i, j);
    }
    forall i | 0 <= i < |s.pcs| && i != j && Passes(env, i) && Passes(env, j) && env.Hash(i) == env.Hash(j)
      ensures exists steps, end :: Shares(env, s, i, j, steps, end)
    {
      SharesIff(env, s, i, j);
    }
  }

  /** Two tools; replays of the second need confirmation and never carry a response. */
  function TwoTools(hash: string): Env {
    var plain := EMPTY.(mode := Strict);
    Env(Config(EMPTY, map["a" := plain, "b" := plain.(confirmReplay := true, strategy := SynthesizedAck)]),
        [Request("a", "", ""), Request("b", "", "")], (body, pol) => Some(Analysis(hash, "")), None, x => x)
  }

  /** Tool isolation, confirmation and acknowledgements do not hold of waiters: a run from the start
      in which a call of the second tool is answered with the first tool's response. */
  lemma IsolationFailsForWaiters(hash: string, status: int, body: string)
    returns (env: Env, s: State, steps: seq<Step>, end: State, r: C.Result)
    requires Success(status)
    ensures |env.reqs| == 2 && env.Tool(0) != env.Tool(1) && env.Confirms(1) && env.Pol(1).strategy == SynthesizedAck
    ensures IsStart(env, s) && IsRun(env, s, steps, end) && |end.pcs| == 2
    ensures end.pcs[1] == Done(Joined(0, C.Shared(r))) && r.body == body && r.status == status
    ensures Delivery(env.Tool(0), status, body) in end.shared.log
  {
    env := TwoTools(hash);
    s := State([Arrived, Arrived], Shared(C.Table(map[], []), map[], 0, [], [], []));
    assert env.Tool(0) == "a" && env.Tool(1) == "b";
    assert env.Pol(0).mode == Strict && env.Pol(1).mode == Strict;
    steps, end, r := WaiterReturnsStrangersBody(env, s, 0, 1, status, body);
  }

  // ---- a tool name continued with a NUL

  /** Two tools, one named like the other followed by a NUL; every intent has the same embedding. */
  function NulTools(sqrt: real -> real): Env {
    Env(Config(EMPTY.(mode := Strict, threshold := 1.0), map[]),
        [Request("a\0b", "", "0"), Request("a", "", "1")],
        (body, pol) => Some(Analysis(body, "x")), Some((text: string) => Some([1.0])), sqrt)
  }

  /** What the first call caches. */
  function NulEntry(env: Env, now: int, status: int, body: string): Store.Entry
    requires 0 < |env.reqs|
  {
    Store.Stamped(BuildEntry(env, 0, now, status, body), now)
  }

  lemma NulToolsFacts(sqrt: real -> real, now: int, status: int, body: string)
    requires sqrt(1.0) == 1.0
    ensures var env, e := NulTools(sqrt), NulEntry(NulTools(sqrt), now, status, body);
      && Passes(env, 0) && Passes(env, 1) && NulFreeHashes(env)
      && env.Tool(0) == "a\0b" && env.Tool(1) == "a" && env.Key(0) == "a\0b" + "\0" + "0" && env.Key(1) == "a\0" + "1"
      && e.tool == "a\0b" && e.hash == "0" && e.embedding == [1.0] && e.ttl == 0
      && env.Query(1) == Some([1.0]) && env.Pol(1).threshold == 1.0 && !env.Confirms(1)
  {
    var env := NulTools(sqrt);
    assert env.Pol(0) == env.cfg.defaults && env.Pol(1) == env.cfg.defaults;
    assert env.Hash(0) == "0" && env.Hash(1) == "1";
  }

  lemma UnitCosine(sqrt: real -> real)
    requires sqrt(1.0) == 1.0
    ensures Embed.Cosine(sqrt, [1.0], [1.0]) == Some(1.0)
  {
    assert Embed.SumSquares([1.0]) == 1.0 && Embed.Dot([1.0], [1.0]) == 1.0;
    assert Embed.Times(1.0, 1.0) == 1.0;
  }

  /** The second call's scan meets only that entry, and takes it. */
  lemma NulEntryIsBest(sqrt: real -> real, now: int, status: int, body: string)
    requires sqrt(1.0) == 1.0
    ensures var env := NulTools(sqrt);
      var e := NulEntry(env, now, status, body);
      && Store.Lookup(map[env.Key(0) := e], now, env.Key(1)) == None
      && Store.AfterGet(map[env.Key(0) := e], now, env.Key(1)) == map[env.Key(0) := e]
      && Search.IsBest(Store.Scanned(map[env.Key(0) := e], now, "a"), sqrt, [1.0], 1.0, Some(Search.Match(e, 1.0)))
  {
    NulToolsFacts(sqrt, now, status, body);
    UnitCosine(sqrt);
    var env := NulTools(sqrt);
    var e := NulEntry(env, now, status, body);
    var tab := map[env.Key(0) := e];
    var live := Store.Scanned(tab, now, "a");
    assert env.Key(0)[..2] == "a\0" && |env.Key(0)| != |env.Key(1)|;
    assert env.Key(0) in live && live[env.Key(0)] == e;
  }

  /** The first call caches its response on an empty store. */
  lemma NulCached(env: Env, s: State, status: int, body: string) returns (steps: seq<Step>, end: State)
    requires IsStart(env, s) && |s.pcs| == 2 && Passes(env, 0) && Success(status)
    requires env.Tool(0) != "" && env.Hash(0) != ""
    ensures IsRun(env, s, steps, end) && |end.pcs| == 2 && end.pcs[1] == Arrived && end.shared.now == s.shared.now
    ensures end.shared.tab == map[env.Key(0) := NulEntry(env, s.shared.now, status, body)]
  {
    steps, end := Misses(env, s, [], s, 0);
    steps, end := ForwardAlone(env, s, steps, end, 0);
    steps, end := Deliver(env, s, steps, end, 0, 0, status, body);
    steps, end := CacheIt(env, s, steps, end, 0);
  }

  /** A call that reads a miss and finds a match in its scan replays it. */
  lemma Finds(env: Env, s: State, steps: seq<Step>, m: State, j: nat, found: Search.Match)
    returns (more: seq<Step>, end: State)
    requires IsRun(env, s, steps, m) && |m.pcs| == |env.reqs| && j < |m.pcs| && m.pcs[j] == Arrived
    requires Passes(env, j) && !env.Confirms(j) && env.Query(j).Some?
    requires Store.Lookup(m.shared.tab, m.shared.now, env.Key(j)) == None
    requires Store.AfterGet(m.shared.tab, m.shared.now, env.Key(j)) == m.shared.tab
    requires Search.IsBest(Store.Scanned(m.shared.tab, m.shared.now, env.Tool(j)), env.sqrt, env.Query(j).value,
                           env.Pol(j).threshold, Some(found))
    ensures IsRun(env, s, more, end) && |end.pcs| == |m.pcs| && end.pcs[j] == Done(Replayed(found.entry, C.Semantic))
  {
    more, end := Go(env, s, steps, m, j, Gate(true));
    assert end == m.(pcs := m.pcs[j := Reading]);
    more, end := Go(env, s, more, end, j, Read(true));
    assert end.pcs[j] == Searching && end.shared == m.shared;
    more, end := Replays(env, s, more, end, j, found);
  }

  lemma Replays(env: Env, s: State, steps: seq<Step>, m: State, j: nat, found: Search.Match)
    returns (more: seq<Step>, end: State)
    requires IsRun(env, s, steps, m) && |m.pcs| == |env.reqs| && j < |m.pcs| && m.pcs[j] == Searching
    requires !env.Confirms(j) && env.Query(j).Some?
    requires Search.IsBest(Store.Scanned(m.shared.tab, m.shared.now, env.Tool(j)), env.sqrt, env.Query(j).value,
                           env.Pol(j).threshold, Some(found))
    ensures IsRun(env, s, more, end) && |end.pcs| == |m.pcs| && end.pcs[j] == Done(Replayed(found.entry, C.Semantic))
  {
    more, end := Go(env, s, steps, m, j, Act.Search(false, Some(found)));
    assert end.pcs[j] == Hitting(found.entry, C.Semantic);
    more, end := Go(env, s, more, end, j, Note);
    assert end.pcs[j] == Counting(found.entry, C.Semantic);
    more, end := Go(env, s, more, end, j, Count(true));
  }

  /** The bound of `PipelineLaws.HitIsOwnTool` is attained: with NUL-free fingerprints a run from the
      start in which a semantic replay answers a call with the response cached for another tool. */
  lemma NulToolIsReplayed(sqrt: real -> real, status: int, body: string)
    returns (env: Env, s: State, steps: seq<Step>, end: State, e: Store.Entry)
    requires sqrt(1.0) == 1.0 && Success(status)
    ensures NulFreeHashes(env) && IsStart(env, s) && IsRun(env, s, steps, end) && |end.pcs| == |env.reqs| == 2
    ensures end.pcs[1] == Done(Replayed(e, C.Semantic)) && e.tool == env.Tool(0) != env.Tool(1)
    ensures e.response == body && e.status == status
  {
    env := NulTools(sqrt);
    s := State([Arrived, Arrived], Shared(C.Table(map[], []), map[], 0, [], [], []));
    e := NulEntry(env, 0, status, body);
    NulToolsFacts(sqrt, 0, status, body);
    NulEntryIsBest(sqrt, 0, status, body);
    steps, end := NulCached(env, s, status, body);
    steps, end := Finds(env, s, steps, end, 1, Search.Match(e, 1.0));
  }
}
