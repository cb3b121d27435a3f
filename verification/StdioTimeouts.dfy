/** Who times out, and when: the clock comparison of the sweeper over one sweep and over runs. */
module StdioTimeouts {
  import opened Outcomes
  import opened Stdio
  import opened StdioRuns

  // ---- one sweep

  /** Releasing the overdue leaders leaves the hashes of the others alone. */
  lemma {:induction false} ExpireKeepsOthers(m: Maps, caching: set<string>, order: seq<Id>, hash: string)
    requires Owned(m, caching) && Pending(m, order)
    requires forall k :: 0 <= k < |order| ==> m.pending[order[k]].hash != hash
    ensures hash in Expire(m, order).0.inflight <==> hash in m.inflight
    ensures hash in m.inflight ==> Expire(m, order).0.inflight[hash] == m.inflight[hash]
    decreases |order|
  {
    if order != [] {
      ExpireKeepsOthers(m, caching, order[..|order| - 1], hash);
      ExpireOneMore(m, order);
    }
  }

  /** A sweep leaves a pending call with its entry, its hash in flight and the waiters under it, if
      and only if the call has no deadline or the sweep is not later than it. */
  lemma SweepKeepsIff(s: State, now: int, order: seq<Id>, id: Id)
    requires Owned(s.maps, BeingCached(s.pump)) && Enabled(s, Sweep(now, order))
    ensures var t := Next(s, Sweep(now, order));
      && (id in t.maps.pending <==>
            id in s.maps.pending && (s.maps.pending[id].deadline.None? || now <= s.maps.pending[id].deadline.value))
      && (id in t.maps.pending ==>
            var call := s.maps.pending[id];
            && t.maps.pending[id] == call && call.hash in s.maps.inflight && call.hash in t.maps.inflight
            && t.maps.inflight[call.hash] == s.maps.inflight[call.hash])
  {
    var t := Next(s, Sweep(now, order));
    assert Overdue(s.maps, now, id) <==> id in order;
    if id in t.maps.pending {
      var hash := s.maps.pending[id].hash;
      assert hash in Hashes(s.maps.pending);
      ExpireKeepsOthers(s.maps, BeingCached(s.pump), order, hash);
    }
  }

  /** Whom a sweep notifies: overdue leaders and the requests queued under their hashes. */
  lemma {:induction false} ExpiredIds(m: Maps, order: seq<Id>, x: Id) returns (k: nat)
    requires Pending(m, order) && x in Expire(m, order).1
    ensures k < |order|
    ensures x == order[k] || (m.pending[order[k]].hash in m.inflight && x in m.inflight[m.pending[order[k]].hash].waiters)
    decreases |order|
  {
    var front, last := order[..|order| - 1], order[|order| - 1];
    ExpireOneMore(m, order);
    if x in Expire(m, front).1 {
      k := ExpiredIds(m, front, x);
      assert front[k] == order[k];
    } else {
      k := |order| - 1;
      ExpireShrinks(m, front);
      assert x in Notified(Expire(m, front).0, last);
    }
  }

  // ---- over runs

  /** In `past` there is a leader whose own deadline some sweep was later than, and `x` is that
      leader or came under its hash. */
  ghost predicate DueTo(past: seq<Step>, x: Id, leader: Id, call: PendingCall, now: int, order: seq<Id>) {
    && Call(leader, call) in past && Sweep(now, order) in past
    && call.deadline.Some? && now > call.deadline.value
    && (x == leader || CameUnder(past, x, call.hash))
  }

  ghost predicate CameUnder(past: seq<Step>, x: Id, hash: string) {
    exists call :: Call(x, call) in past && call.hash == hash
  }

  ghost predicate Justified(past: seq<Step>, x: Id) {
    exists leader, call, now, order :: DueTo(past, x, leader, call, now, order)
  }

  /** Every pending entry, queued id, notification in hand and timeout frame has its cause in `past`. */
  ghost predicate Caused(s: State, past: seq<Step>) {
    && (forall id :: id in s.maps.pending ==> Call(id, s.maps.pending[id]) in past)
    && (forall h, x :: h in s.maps.inflight && x in s.maps.inflight[h].waiters ==> CameUnder(past, x, h))
    && (forall x :: x in s.sweeping ==> Justified(past, x))
    && (forall x :: TimedOut(x) in s.out ==> Justified(past, x))
  }

  lemma PastGrows(past: seq<Step>, step: Step, x: Id)
    ensures Justified(past, x) ==> Justified(past + [step], x)
    ensures forall h :: CameUnder(past, x, h) ==> CameUnder(past + [step], x, h)
  {
    var longer := past + [step];
    assert forall p :: p in past ==> p in longer;
    if Justified(past, x) {
      var leader, call, now, order :| DueTo(past, x, leader, call, now, order);
      assert DueTo(longer, x, leader, call, now, order);
    }
  }

  lemma CausedLonger(s: State, past: seq<Step>, step: Step)
    requires Caused(s, past)
    ensures Caused(s, past + [step])
  {
    var longer := past + [step];
    assert forall p :: p in past ==> p in longer;
    forall x ensures Justified(past, x) ==> Justified(longer, x) {
      PastGrows(past, step, x);
    }
    forall h, x | h in s.maps.inflight && x in s.maps.inflight[h].waiters ensures CameUnder(longer, x, h) {
      PastGrows(past, step, x);
    }
  }

  lemma SweepIsCause(s: State, past: seq<Step>, now: int, order: seq<Id>, x: Id)
    requires Caused(s, past) && Enabled(s, Sweep(now, order)) && Sweep(now, order) in past
    requires x in Expire(s.maps, order).1
    ensures Justified(past, x)
  {
    var k := ExpiredIds(s.maps, order, x);
    var leader := order[k];
    var call := s.maps.pending[leader];
    assert Overdue(s.maps, now, leader);
    assert DueTo(past, x, leader, call, now, order);
  }

  lemma CallCaused(s: State, past: seq<Step>, id: Id, call: PendingCall)
    requires Caused(s, past) && Enabled(s, Call(id, call)) && Call(id, call) in past
    ensures Caused(Next(s, Call(id, call)), past)
  {
    var t := Next(s, Call(id, call));
    assert CameUnder(past, id, call.hash);
    forall h, x | h in t.maps.inflight && x in t.maps.inflight[h].waiters ensures CameUnder(past, x, h) {
      if call.hash in s.maps.inflight && h == call.hash && x != id {
        assert x in s.maps.inflight[h].waiters;
      }
    }
  }

  lemma SweepCaused(s: State, past: seq<Step>, now: int, order: seq<Id>)
    requires Caused(s, past) && Enabled(s, Sweep(now, order)) && Sweep(now, order) in past
    ensures Caused(Next(s, Sweep(now, order)), past)
  {
    ExpireShrinks(s.maps, order);
    forall x | x in Expire(s.maps, order).1 ensures Justified(past, x) {
      SweepIsCause(s, past, now, order, x);
    }
  }

  lemma NextCaused(s: State, past: seq<Step>, step: Step)
    requires Caused(s, past) && Enabled(s, step)
    ensures Caused(Next(s, step), past + [step])
  {
    CausedLonger(s, past, step);
    var longer := past + [step];
    assert longer[|past|] == step;
    match step
    case Call(id, call) => CallCaused(s, longer, id, call);
    case Sweep(now, order) => SweepCaused(s, longer, now, order);
    case _ =>
  }

  lemma {:induction false} RunCaused(s: State, past: seq<Step>, steps: seq<Step>, end: State)
    requires Caused(s, past) && IsRun(s, steps, end)
    ensures Caused(end, past + steps)
    decreases |steps|
  {
    if steps == [] {
      assert past + steps == past;
    } else {
      NextCaused(s, past, steps[0]);
      RunCaused(Next(s, steps[0]), past + [steps[0]], steps[1..], end);
      assert past + [steps[0]] + steps[1..] == past + steps;
    }
  }

  /** Over every run, a timeout error for `x` means that some sweep of the run came after the own
      deadline of a leader, and that `x` is that leader or came with its hash. */
  lemma TimeoutsAreDue(steps: seq<Step>, end: State, x: Id)
    returns (leader: Id, call: PendingCall, now: int, order: seq<Id>)
    requires IsRun(START, steps, end) && TimedOut(x) in end.out
    ensures Call(leader, call) in steps && Sweep(now, order) in steps
    ensures call.deadline.Some? && now > call.deadline.value
    ensures x == leader || exists own :: Call(x, own) in steps && own.hash == call.hash
  {
    RunCaused(START, [], steps, end);
    assert [] + steps == steps;
    leader, call, now, order :| DueTo(steps, x, leader, call, now, order);
  }

  // ---- what can happen

  /** The surroundings are free: any request may come under a new id, the child may send any frame with
      an id between two others, and a sweep may come at any time. */
  lemma AnythingCanHappen(s: State, id: Id, call: PendingCall, now: int)
    ensures id !in s.asked ==> Enabled(s, Call(id, call))
    ensures id != "" && s.pump == Idle ==> Enabled(s, Respond(id))
    ensures s.sweeping == [] ==> exists order :: Enabled(s, Sweep(now, order))
  {
    if s.sweeping == [] {
      var order := OverdueIds(s.maps, now, s.maps.pending.Keys);
      assert forall k :: 0 <= k < |order| ==> order[k] in order;
      assert IsExpiry(s.maps, now, order);
      assert Enabled(s, Sweep(now, order));
    }
  }

  lemma {:induction false} OverdueIds(m: Maps, now: int, ids: set<Id>) returns (order: seq<Id>)
    requires ids <= m.pending.Keys
    ensures Distinct(order) && forall id :: id in order <==> id in ids && Overdue(m, now, id)
    decreases |ids|
  {
    if ids == {} {
      order := [];
    } else {
      var id :| id in ids;
      order := OverdueIds(m, now, ids - {id});
      if Overdue(m, now, id) { order := order + [id]; }
    }
  }
}
