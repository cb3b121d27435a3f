/** How many frames a request gets, and what becomes of requests behind a lost leader. */
module StdioFrames {
  import opened Outcomes
  import opened Stdio
  import opened StdioRuns

  // ---- frames per request

  function Heard(out: seq<Frame>, id: Id): nat {
    if out == [] then 0 else Heard(out[..|out| - 1], id) + if out[|out| - 1].id == id then 1 else 0
  }

  /** Frames that are the child's own, solicited or not. */
  function Echoes(out: seq<Frame>, id: Id): nat {
    if out == [] then 0
    else
      var f := out[|out| - 1];
      Echoes(out[..|out| - 1], id) + if (f.Own? || f.PassedOn?) && f.id == id then 1 else 0
  }

  function Passed(out: seq<Frame>, id: Id): nat {
    if out == [] then 0 else Passed(out[..|out| - 1], id) + if out[|out| - 1] == PassedOn(id) then 1 else 0
  }

  lemma {:induction false} HeardSplits(out: seq<Frame>, id: Id)
    ensures Heard(out, id) == Settled(out, id) + Passed(out, id)
  {
    if out != [] { HeardSplits(out[..|out| - 1], id); }
  }

  /** Over every run the frames that name a request are the one that settles it, if it is settled,
      and those the child sent while nobody was waiting for them. */
  lemma FramesPerRequest(steps: seq<Step>, end: State, id: Id)
    requires IsRun(START, steps, end) && id in end.asked
    ensures Heard(end.out, id) == Settled(end.out, id) + Passed(end.out, id)
    ensures Settled(end.out, id) <= 1
  {
    EveryRunIsGood(steps, end);
    HeardSplits(end.out, id);
    assert PlacedOnce(end, id);
  }

  // ---- the child's frames are the child's responses

  function Responds(steps: seq<Step>, id: Id): nat {
    if steps == [] then 0 else (if steps[0] == Respond(id) then 1 else 0) + Responds(steps[1..], id)
  }

  function InHand(pump: Pump, id: Id): nat {
    if (pump.Caching? || pump.Replying?) && pump.leader == id then 1 else 0
  }

  lemma EchoesAppend(out: seq<Frame>, f: Frame, id: Id)
    ensures Echoes(out + [f], id) == Echoes(out, id) + if (f.Own? || f.PassedOn?) && f.id == id then 1 else 0
    ensures Heard(out + [f], id) == Heard(out, id) + if f.id == id then 1 else 0
  {
    assert (out + [f])[..|out|] == out;
  }

  /** The child's frame leaves the pump's hand when it is written. */
  lemma WriteEchoes(s: State, id: Id)
    requires Enabled(s, Write)
    ensures Echoes(Next(s, Write).out, id) + InHand(Next(s, Write).pump, id) == Echoes(s.out, id) + InHand(s.pump, id)
  {
    match s.pump
    case Replying(leader, solicited, _) => EchoesAppend(s.out, if solicited then Own(leader) else PassedOn(leader), id);
    case Fanning(leader, waiters) => if waiters != [] { EchoesAppend(s.out, Fanned(waiters[0], leader), id); }
    case _ =>
  }

  lemma NextEchoes(s: State, step: Step, id: Id)
    requires Enabled(s, step)
    ensures Echoes(Next(s, step).out, id) + InHand(Next(s, step).pump, id)
         == Echoes(s.out, id) + InHand(s.pump, id) + if step == Respond(id) then 1 else 0
  {
    match step
    case Write => WriteEchoes(s, id);
    case Notify => EchoesAppend(s.out, TimedOut(s.sweeping[0]), id);
    case _ =>
  }

  /** Every response of the child becomes one frame of its own, no more and no fewer. */
  lemma {:induction false} EchoesAreResponses(s: State, steps: seq<Step>, end: State, id: Id)
    requires IsRun(s, steps, end)
    ensures Echoes(end.out, id) + InHand(end.pump, id) == Echoes(s.out, id) + InHand(s.pump, id) + Responds(steps, id)
    decreases |steps|
  {
    if steps != [] {
      NextEchoes(s, steps[0], id);
      EchoesAreResponses(Next(s, steps[0]), steps[1..], end, id);
    }
  }

  // ---- a leader without a deadline

  /** A request that leads and can never time out. */
  ghost predicate Undying(s: State, id: Id) {
    && id in s.asked && id !in s.queued && id !in s.sweeping
    && (id in s.maps.pending ==> s.maps.pending[id].deadline.None?)
    && Heard(s.out, id) == Echoes(s.out, id)
  }

  ghost predicate NotQueued(m: Maps, id: Id) {
    forall h :: h in m.inflight ==> id !in m.inflight[h].waiters
  }

  lemma {:induction false} ExpireSpares(m: Maps, order: seq<Id>, id: Id)
    requires Pending(m, order) && id !in order && NotQueued(m, id)
    ensures id !in Expire(m, order).1
    decreases |order|
  {
    if order != [] {
      var shorter := order[..|order| - 1];
      ExpireSpares(m, shorter, id);
      ExpireShrinks(m, shorter);
      assert order == shorter + [order[|order| - 1]];
    }
  }

  lemma LeaderIsNotQueued(s: State, id: Id)
    requires Roles(s) && id !in s.queued
    ensures NotQueued(s.maps, id)
  {
    forall h | h in s.maps.inflight ensures id !in s.maps.inflight[h].waiters {
      var ws := s.maps.inflight[h].waiters;
      assert forall i :: 0 <= i < |ws| ==> Waits(s.maps.inflight[h].waiters[i], h, s.asked, s.queued);
    }
  }

  lemma SweepSpares(s: State, now: int, order: seq<Id>, id: Id)
    requires Enabled(s, Sweep(now, order)) && Roles(s) && Undying(s, id)
    ensures Undying(Next(s, Sweep(now, order)), id)
  {
    LeaderIsNotQueued(s, id);
    assert !Overdue(s.maps, now, id);
    ExpireSpares(s.maps, order, id);
  }

  lemma WriteSpares(s: State, id: Id)
    requires Enabled(s, Write) && Roles(s) && Undying(s, id)
    ensures Undying(Next(s, Write), id)
  {
    match s.pump
    case Replying(leader, solicited, _) => EchoesAppend(s.out, if solicited then Own(leader) else PassedOn(leader), id);
    case Fanning(leader, waiters) =>
      if waiters != [] {
        assert Waits(waiters[0], s.asked[leader], s.asked, s.queued);
        EchoesAppend(s.out, Fanned(waiters[0], leader), id);
      }
    case _ =>
  }

  lemma NotifySpares(s: State, id: Id)
    requires Enabled(s, Notify) && Undying(s, id)
    ensures Undying(Next(s, Notify), id)
  {
    EchoesAppend(s.out, TimedOut(s.sweeping[0]), id);
  }

  lemma NextUndying(s: State, step: Step, id: Id)
    requires Enabled(s, step) && Roles(s) && Undying(s, id)
    ensures Undying(Next(s, step), id)
  {
    match step
    case Sweep(now, order) => SweepSpares(s, now, order, id);
    case Write => WriteSpares(s, id);
    case Notify => NotifySpares(s, id);
    case _ =>
  }

  lemma {:induction false} UndyingToTheEnd(s: State, steps: seq<Step>, end: State, id: Id)
    requires Good(s) && IsRun(s, steps, end) && Undying(s, id)
    ensures Undying(end, id)
    decreases |steps|
  {
    if steps != [] {
      NextUndying(s, steps[0], id);
      NextGood(s, steps[0]);
      UndyingToTheEnd(Next(s, steps[0]), steps[1..], end, id);
    }
  }

  lemma NextGood(s: State, step: Step)
    requires Good(s) && Enabled(s, step)
    ensures Good(Next(s, step))
  {
    RunOne(s, step);
    RunKeeps(s, [step], Next(s, step));
  }

  /** An id is called at most once. */
  lemma {:induction false} Called(s: State, steps: seq<Step>, end: State, id: Id, call: PendingCall)
    requires IsRun(s, steps, end) && Call(id, call) in steps
    ensures id !in s.asked
    decreases |steps|
  {
    if steps[0] != Call(id, call) { Called(Next(s, steps[0]), steps[1..], end, id, call); }
  }

  lemma {:induction false} QueuedGrows(s: State, steps: seq<Step>, end: State)
    requires IsRun(s, steps, end)
    ensures s.queued <= end.queued
    decreases |steps|
  {
    if steps != [] { QueuedGrows(Next(s, steps[0]), steps[1..], end); }
  }

  lemma {:induction false} Unsettled(out: seq<Frame>, id: Id, asked: map<Id, string>, queued: set<Id>)
    requires id !in asked && forall i :: 0 <= i < |out| ==> FrameRole(out[i], asked, queued)
    ensures Passed(out, id) == Echoes(out, id)
  {
    if out != [] {
      assert FrameRole(out[|out| - 1], asked, queued);
      Unsettled(out[..|out| - 1], id, asked, queued);
    }
  }

  lemma Absent(s: State, id: Id)
    requires Conserved(s) && id !in s.asked
    ensures id !in s.sweeping && Settled(s.out, id) == 0
  {
    assert PlacedOnce(s, id);
    CountIsMultiset(s.sweeping, id);
  }

  lemma BecomesUndying(s: State, id: Id, call: PendingCall)
    requires Good(s) && Enabled(s, Call(id, call)) && call.deadline.None? && id !in Next(s, Call(id, call)).queued
    ensures Undying(Next(s, Call(id, call)), id)
  {
    HeardSplits(s.out, id);
    Unsettled(s.out, id, s.asked, s.queued);
    Absent(s, id);
  }

  /** Every frame for a leader whose request has no deadline is a response of the child. */
  lemma {:induction false} NoDeadlineNoTimeout(s: State, steps: seq<Step>, end: State, id: Id, call: PendingCall)
    requires Good(s) && IsRun(s, steps, end) && Call(id, call) in steps && call.deadline.None? && id !in end.queued
    ensures Heard(end.out, id) == Echoes(end.out, id)
    decreases |steps|
  {
    Called(s, steps, end, id, call);
    var t := Next(s, steps[0]);
    NextGood(s, steps[0]);
    if steps[0] == Call(id, call) {
      QueuedGrows(t, steps[1..], end);
      BecomesUndying(s, id, call);
      UndyingToTheEnd(t, steps[1..], end, id);
    } else {
      NoDeadlineNoTimeout(t, steps[1..], end, id, call);
    }
  }

  /** The only request is a leader past its deadline: one sweep takes it out. */
  lemma SweepTakesLeader(id: Id, call: PendingCall, now: int)
    requires call.deadline.Some? && now > call.deadline.value
    ensures var m := Enqueue(EMPTY, id, call); IsExpiry(m, now, [id]) && Expire(m, [id]) == (EMPTY, [id])
  {
    var m := Enqueue(EMPTY, id, call);
    assert m == Maps(map[id := call], map[call.hash := Inflight([], call.deadline)]);
    assert [id][..0] == [] && Expire(m, []) == (m, []);
    assert m.pending - {id} == map[] && m.inflight - {call.hash} == map[];
    assert [id] + [] == [id] && [] + [id] == [id];
  }

  /** Timed out, then answered: the state after each of the two halves. */
  lemma TimesOut(id: Id, call: PendingCall) returns (steps: seq<Step>, end: State)
    requires id != "" && call.deadline.Some?
    ensures IsRun(START, steps, end) && steps == [Call(id, call), Sweep(call.deadline.value + 1, [id]), Notify]
    ensures end == State(EMPTY, Idle, [], [TimedOut(id)], map[id := call.hash], {})
  {
    var now := call.deadline.value + 1;
    var m := Enqueue(EMPTY, id, call);
    var called := State(m, Idle, [], [], map[id := call.hash], {});
    assert Next(START, Call(id, call)) == called;
    SweepTakesLeader(id, call, now);
    var swept := State(EMPTY, Idle, [id], [], map[id := call.hash], {});
    assert Next(called, Sweep(now, [id])) == swept;
    end := Next(swept, Notify);
    assert [] + [TimedOut(id)] == [TimedOut(id)] && [id][1..] == [];
    RunOne(swept, Notify);
    RunMore(called, Sweep(now, [id]), [Notify], end);
    RunMore(START, Call(id, call), [Sweep(now, [id])] + [Notify], end);
    steps := [Call(id, call)] + ([Sweep(now, [id])] + [Notify]);
  }

  lemma LateAnswer(s: State, id: Id) returns (end: State)
    requires s.pump == Idle && id != "" && id !in s.maps.pending
    ensures IsRun(s, [Respond(id), Write], end) && end.out == s.out + [PassedOn(id)] && end.queued == s.queued
  {
    var responded := Next(s, Respond(id));
    assert responded.pump == Replying(id, false, []);
    end := Next(responded, Write);
    RunOne(responded, Write);
    RunMore(s, Respond(id), [Write], end);
    assert [Respond(id)] + [Write] == [Respond(id), Write];
  }

  /** Leaders are settled once, but a child that answers after the timeout is still heard: the
      client then sees two frames for one request. */
  lemma LeaderMayHearTwice(id: Id, call: PendingCall) returns (steps: seq<Step>, end: State)
    requires id != "" && call.deadline.Some?
    ensures IsRun(START, steps, end)
    ensures end.out == [TimedOut(id), PassedOn(id)] && id !in end.queued
    ensures steps == [Call(id, call), Sweep(call.deadline.value + 1, [id]), Notify, Respond(id), Write]
  {
    var first, mid := TimesOut(id, call);
    end := LateAnswer(mid, id);
    RunAppend(START, first, mid, [Respond(id), Write], end);
    steps := first + [Respond(id), Write];
    assert [TimedOut(id)] + [PassedOn(id)] == [TimedOut(id), PassedOn(id)];
  }

  /** In some run the leader `id` hears twice although the child answers it at most once. */
  ghost predicate HearsTwice(id: Id, call: PendingCall, steps: seq<Step>, end: State) {
    && IsRun(START, steps, end) && Call(id, call) in steps && id !in end.queued
    && Responds(steps, id) <= 1 && Heard(end.out, id) >= 2
  }

  /** No response carries the empty id. */
  lemma {:induction false} NoResponseWithoutId(s: State, steps: seq<Step>, end: State)
    requires IsRun(s, steps, end)
    ensures Responds(steps, "") == 0
    decreases |steps|
  {
    if steps != [] { NoResponseWithoutId(Next(s, steps[0]), steps[1..], end); }
  }

  lemma {:induction false} PassedIsEcho(out: seq<Frame>, id: Id)
    ensures Passed(out, id) <= Echoes(out, id)
  {
    if out != [] { PassedIsEcho(out[..|out| - 1], id); }
  }

  lemma {:induction false} CallIsAsked(s: State, steps: seq<Step>, end: State, id: Id, call: PendingCall)
    requires IsRun(s, steps, end) && (Call(id, call) in steps || (id in s.asked && s.asked[id] == call.hash))
    ensures id in end.asked && end.asked[id] == call.hash
    decreases |steps|
  {
    if steps != [] { CallIsAsked(Next(s, steps[0]), steps[1..], end, id, call); }
  }

  lemma NamelessHearsOnce(id: Id, call: PendingCall, steps: seq<Step>, end: State)
    requires HearsTwice(id, call, steps, end)
    ensures id != ""
  {
    CallIsAsked(START, steps, end, id, call);
    FramesPerRequest(steps, end, id);
    PassedIsEcho(end.out, id);
    EchoesAreResponses(START, steps, end, id);
    NoResponseWithoutId(START, steps, end);
  }

  /** Given a child that answers a request at most once, a leader can hear twice exactly when its
      request has an id and a deadline, that is, when the request timeout is enabled. */
  lemma LeaderHearsTwiceIff(id: Id, call: PendingCall)
    ensures (exists steps, end :: HearsTwice(id, call, steps, end)) <==> id != "" && call.deadline.Some?
  {
    forall steps, end | HearsTwice(id, call, steps, end) ensures id != "" && call.deadline.Some? {
      NamelessHearsOnce(id, call, steps, end);
      if call.deadline.None? {
        StartIsGood();
        NoDeadlineNoTimeout(START, steps, end, id, call);
        EchoesAreResponses(START, steps, end, id);
      }
    }
    if id != "" && call.deadline.Some? {
      var steps, end := LeaderMayHearTwice(id, call);
      TwoFrames(id, call);
      assert steps[0] == Call(id, call);
      assert HearsTwice(id, call, steps, end);
    }
  }

  lemma TwoFrames(id: Id, call: PendingCall)
    requires call.deadline.Some?
    ensures Heard([TimedOut(id), PassedOn(id)], id) == 2
    ensures Responds([Call(id, call), Sweep(call.deadline.value + 1, [id]), Notify, Respond(id), Write], id) == 1
  {
    var out := [TimedOut(id), PassedOn(id)];
    assert out[..1] == [TimedOut(id)] && [TimedOut(id)][..0] == [];
    assert Heard(out[..1], id) == 1;
    var sweep := Sweep(call.deadline.value + 1, [id]);
    RespondsCons(Write, [], id);
    RespondsCons(Respond(id), [Write], id);
    RespondsCons(Notify, [Respond(id), Write], id);
    RespondsCons(sweep, [Notify, Respond(id), Write], id);
    RespondsCons(Call(id, call), [sweep, Notify, Respond(id), Write], id);
    assert [Write] + [] == [Write] && [Respond(id)] + [Write] == [Respond(id), Write];
    assert [Notify] + [Respond(id), Write] == [Notify, Respond(id), Write];
    assert [sweep] + [Notify, Respond(id), Write] == [sweep, Notify, Respond(id), Write];
    assert [Call(id, call)] + [sweep, Notify, Respond(id), Write] == [Call(id, call), sweep, Notify, Respond(id), Write];
  }

  lemma RespondsCons(step: Step, rest: seq<Step>, id: Id)
    ensures Responds([step] + rest, id) == (if step == Respond(id) then 1 else 0) + Responds(rest, id)
  {
    assert ([step] + rest)[1..] == rest;
  }

  // ---- requests behind a lost leader

  ghost predicate Stranded(s: State, hash: string, id: Id) {
    Orphaned(s, hash) && id in s.maps.inflight[hash].waiters
  }

  /** Reusing the id of a pending leader for a call that is forwarded, which clients must not do,
      orphans the leader's hash. */
  lemma ReuseOrphans(s: State, id: Id, call: PendingCall)
    requires Good(s) && id in s.maps.pending && call.hash !in s.maps.inflight
    ensures var t := s.(maps := Enqueue(s.maps, id, call));
      Orphaned(t, s.maps.pending[id].hash) && Conserved(t) && t.maps.pending.Keys <= t.asked.Keys
  {
    var m := Enqueue(s.maps, id, call);
    LosesOwner(s.maps, BeingCached(s.pump), id, call);
    SamePlaces(s, id, call);
    assert m.pending.Keys == s.maps.pending.Keys;
  }

  lemma LosesOwner(m: Maps, caching: set<string>, id: Id, call: PendingCall)
    requires Owned(m, caching) && id in m.pending && call.hash !in m.inflight
    ensures var m', lost := Enqueue(m, id, call), m.pending[id].hash;
      lost in m'.inflight && lost !in Hashes(m'.pending) && lost !in caching
  {
    var m', lost := Enqueue(m, id, call), m.pending[id].hash;
    assert lost in Hashes(m.pending);
    forall a | a in m'.pending ensures m'.pending[a].hash != lost {
      if a == id { assert m'.pending[a].hash == call.hash; }
    }
  }

  lemma SamePlaces(s: State, id: Id, call: PendingCall)
    requires Conserved(s) && id in s.maps.pending && call.hash !in s.maps.inflight
    ensures Conserved(s.(maps := Enqueue(s.maps, id, call)))
  {
    var t := s.(maps := Enqueue(s.maps, id, call));
    LeadConserves(s.maps, id, call);
    assert t.maps.pending.Keys == s.maps.pending.Keys;
    assert InMaps(t.maps) == InMaps(s.maps);
    forall x: Id ensures PlacedOnce(t, x) {
      assert PlacedOnce(s, x);
    }
  }

  /** A call that arrives with an orphaned hash is stranded. */
  lemma CallIsStranded(s: State, id: Id, call: PendingCall)
    requires Orphaned(s, call.hash) && Enabled(s, Call(id, call))
    ensures Stranded(Next(s, Call(id, call)), call.hash, id)
  {
    var ws := s.maps.inflight[call.hash].waiters;
    assert (ws + [id])[|ws|] == id;
  }

  lemma ExpireKeepsWaiters(m: Maps, order: seq<Id>, hash: string)
    requires Pending(m, order) && hash in m.inflight && hash in Expire(m, order).0.inflight
    ensures Expire(m, order).0.inflight[hash] == m.inflight[hash]
  {
    ExpireShrinks(m, order);
  }

  lemma NextStranded(s: State, step: Step, hash: string, id: Id)
    requires Stranded(s, hash, id) && Enabled(s, step)
    ensures Stranded(Next(s, step), hash, id)
  {
    var t := Next(s, step);
    RunOne(s, step);
    OrphanStays(s, [step], t, hash);
    match step
    case Call(other, call) =>
      if call.hash == hash { assert id in s.maps.inflight[hash].waiters + [other]; }
    case Sweep(now, order) => ExpireKeepsWaiters(s.maps, order, hash);
    case _ =>
  }

  lemma StrandedIsUnsettled(s: State, hash: string, id: Id)
    requires Stranded(s, hash, id) && Conserved(s)
    ensures Settled(s.out, id) == 0
  {
    BagRemove(s.maps.inflight, hash);
    assert multiset(s.maps.inflight[hash].waiters)[id] > 0;
    assert PlacedOnce(s, id);
  }

  /** Whatever happens next, a request queued under an orphaned hash stays queued and no frame ever
      settles it: no response, no copy, no timeout. */
  lemma {:induction false} StrandedForever(s: State, steps: seq<Step>, end: State, hash: string, id: Id)
    requires Stranded(s, hash, id) && IsRun(s, steps, end) && Conserved(s) && s.maps.pending.Keys <= s.asked.Keys
    ensures Stranded(end, hash, id) && Settled(end.out, id) == 0
    decreases |steps|
  {
    if steps == [] {
      StrandedIsUnsettled(s, hash, id);
    } else {
      NextStranded(s, steps[0], hash, id);
      NextConserves(s, steps[0]);
      StrandedForever(Next(s, steps[0]), steps[1..], end, hash, id);
    }
  }

  // ---- who shares a response

  /** Some frame copies the response to `leader` to the request `id`. */
  ghost predicate Copied(leader: Id, a: PendingCall, id: Id, b: PendingCall, steps: seq<Step>, end: State) {
    IsRun(START, steps, end) && Call(leader, a) in steps && Call(id, b) in steps && Fanned(id, leader) in end.out
  }

  /** Responses that the pump handles carry an id. */
  predicate Named(s: State) {
    && (s.pump.Idle? || (s.pump.Fanning? && s.pump.waiters == []) || s.pump.leader != "")
    && forall i :: 0 <= i < |s.out| && s.out[i].Fanned? ==> s.out[i].leader != ""
  }

  lemma NextNamed(s: State, step: Step)
    requires Enabled(s, step) && Named(s) && Roles(s)
    ensures Named(Next(s, step))
  {
  }

  lemma {:induction false} RunNamed(s: State, steps: seq<Step>, end: State)
    requires Good(s) && Named(s) && IsRun(s, steps, end)
    ensures Named(end)
    decreases |steps|
  {
    if steps != [] {
      NextNamed(s, steps[0]);
      NextGood(s, steps[0]);
      RunNamed(Next(s, steps[0]), steps[1..], end);
    }
  }

  lemma CopiedOnlyWithin(leader: Id, a: PendingCall, id: Id, b: PendingCall, steps: seq<Step>, end: State)
    requires Copied(leader, a, id, b, steps, end)
    ensures leader != "" && leader != id && a.hash == b.hash
  {
    EveryRunIsGood(steps, end);
    StartIsGood();
    RunNamed(START, steps, end);
    CallIsAsked(START, steps, end, leader, a);
    CallIsAsked(START, steps, end, id, b);
    var k :| 0 <= k < |end.out| && end.out[k] == Fanned(id, leader);
    assert FrameRole(end.out[k], end.asked, end.queued);
  }

  /** Two requests with one hash, of whatever tools: the second is queued behind the first. */
  lemma Queues(x: Id, y: Id, a: PendingCall, b: PendingCall) returns (end: State)
    requires x != y && a.hash == b.hash
    ensures IsRun(START, [Call(x, a), Call(y, b)], end)
    ensures end.maps == Maps(map[x := a], map[a.hash := Inflight([y], a.deadline)]) && end.pump == Idle && end.out == []
  {
    var one := Next(START, Call(x, a));
    end := Next(one, Call(y, b));
    assert [] + [y] == [y];
    RunOne(one, Call(y, b));
    RunMore(START, Call(x, a), [Call(y, b)], end);
    assert [Call(x, a)] + [Call(y, b)] == [Call(x, a), Call(y, b)];
  }

  /** The child answers a leader with one waiter. */
  lemma AnswersBoth(s: State, x: Id, y: Id) returns (end: State)
    requires x != "" && s.pump == Idle && x in s.maps.pending && Waiting(s.maps, s.maps.pending[x].hash) == [y]
    ensures IsRun(s, [Respond(x), Cached, Write, Write], end) && end.out == s.out + [Own(x)] + [Fanned(y, x)]
  {
    var responded := Next(s, Respond(x));
    var cached := Next(responded, Cached);
    assert cached.pump == Replying(x, true, [y]);
    var written := Next(cached, Write);
    assert written.pump == Fanning(x, [y]);
    end := Next(written, Write);
    RunOne(written, Write);
    RunMore(cached, Write, [Write], end);
    RunMore(responded, Cached, [Write] + [Write], end);
    RunMore(s, Respond(x), [Cached] + ([Write] + [Write]), end);
    assert [Respond(x)] + ([Cached] + ([Write] + [Write])) == [Respond(x), Cached, Write, Write];
  }

  lemma CopiedRun(x: Id, y: Id, a: PendingCall, b: PendingCall) returns (steps: seq<Step>, end: State)
    requires x != "" && x != y && a.hash == b.hash
    ensures Copied(x, a, y, b, steps, end)
  {
    var mid := Queues(x, y, a, b);
    end := AnswersBoth(mid, x, y);
    var calls := [Call(x, a), Call(y, b)];
    RunAppend(START, calls, mid, [Respond(x), Cached, Write, Write], end);
    steps := calls + [Respond(x), Cached, Write, Write];
    assert steps[0] == Call(x, a) && steps[1] == Call(y, b);
    assert end.out[|end.out| - 1] == Fanned(y, x);
  }

  /** A response can be copied to another request exactly when the two came under one hash and the
      leader has an id; tools and arguments do not matter. */
  lemma CopiedIff(leader: Id, a: PendingCall, id: Id, b: PendingCall)
    ensures (exists steps, end :: Copied(leader, a, id, b, steps, end))
            <==> leader != "" && leader != id && a.hash == b.hash
  {
    forall steps, end | Copied(leader, a, id, b, steps, end) ensures leader != "" && leader != id && a.hash == b.hash {
      CopiedOnlyWithin(leader, a, id, b, steps, end);
    }
    if leader != "" && leader != id && a.hash == b.hash {
      var steps, end := CopiedRun(leader, id, a, b);
    }
  }

  // ---- every request can be settled without the child

  /** Steps of the proxy alone: no further request and no further response. */
  predicate Internal(steps: seq<Step>) {
    forall k :: 0 <= k < |steps| ==> !steps[k].Call? && !steps[k].Respond?
  }

  lemma StepThen(s: State, step: Step, steps: seq<Step>, end: State) returns (more: seq<Step>)
    requires Enabled(s, step) && IsRun(Next(s, step), steps, end) && Internal(steps) && !step.Call? && !step.Respond?
    ensures IsRun(s, more, end) && Internal(more)
  {
    more := [step] + steps;
    RunMore(s, step, steps, end);
  }

  lemma {:induction false} DrainFan(s: State) returns (steps: seq<Step>, end: State)
    requires s.pump.Fanning?
    ensures IsRun(s, steps, end) && Internal(steps) && end.pump == Idle
    ensures end.maps == s.maps && end.sweeping == s.sweeping && end.asked == s.asked
    decreases |s.pump.waiters|
  {
    var t := Next(s, Write);
    if s.pump.waiters == [] {
      steps, end := [], t;
    } else {
      steps, end := DrainFan(t);
    }
    steps := StepThen(s, Write, steps, end);
  }

  /** The pump finishes what it has in hand; pending calls are not touched. */
  lemma DrainPump(s: State) returns (steps: seq<Step>, end: State)
    ensures IsRun(s, steps, end) && Internal(steps) && end.pump == Idle
    ensures end.maps.pending == s.maps.pending && end.sweeping == s.sweeping && end.asked == s.asked
  {
    if s.pump.Idle? {
      steps, end := [], s;
    } else if s.pump.Fanning? {
      steps, end := DrainFan(s);
    } else if s.pump.Replying? {
      steps, end := DrainFan(Next(s, Write));
      steps := StepThen(s, Write, steps, end);
    } else {
      var t := Next(s, Cached);
      steps, end := DrainFan(Next(t, Write));
      steps := StepThen(t, Write, steps, end);
      steps := StepThen(s, Cached, steps, end);
    }
  }

  lemma {:induction false} DrainSweeper(s: State) returns (steps: seq<Step>, end: State)
    ensures IsRun(s, steps, end) && Internal(steps) && end.sweeping == []
    ensures end.maps == s.maps && end.pump == s.pump && end.asked == s.asked
    decreases |s.sweeping|
  {
    if s.sweeping == [] {
      steps, end := [], s;
    } else {
      steps, end := DrainSweeper(Next(s, Notify));
      steps := StepThen(s, Notify, steps, end);
    }
  }

  /** An instant after every deadline, and the pending calls in some order. */
  lemma {:induction false} AfterAll(pending: map<Id, PendingCall>, ids: set<Id>) returns (now: int, order: seq<Id>)
    requires ids <= pending.Keys && forall id :: id in ids ==> pending[id].deadline.Some?
    ensures forall id :: id in ids ==> now > pending[id].deadline.value
    ensures Distinct(order) && forall id :: id in order <==> id in ids
    decreases |ids|
  {
    if ids == {} {
      now, order := 0, [];
    } else {
      var id :| id in ids;
      var before, rest := AfterAll(pending, ids - {id});
      now := if before > pending[id].deadline.value then before else pending[id].deadline.value + 1;
      order := rest + [id];
    }
  }

  ghost predicate AllTimed(m: Maps) {
    forall id :: id in m.pending ==> m.pending[id].deadline.Some?
  }

  lemma SweepAll(s: State) returns (step: Step)
    requires Good(s) && AllTimed(s.maps) && s.pump == Idle && s.sweeping == []
    ensures Enabled(s, step) && step.Sweep? && Next(s, step).maps == EMPTY
  {
    var now, order := AfterAll(s.maps.pending, s.maps.pending.Keys);
    assert forall i :: 0 <= i < |order| ==> order[i] in order;
    step := Sweep(now, order);
    SweepEmpties(s, now, order);
  }

  /** Pump and sweeper finish what they have in hand. */
  lemma Drain(s: State) returns (steps: seq<Step>, end: State)
    requires Good(s)
    ensures IsRun(s, steps, end) && Internal(steps) && Good(end) && end.pump == Idle && end.sweeping == []
    ensures end.maps.pending == s.maps.pending && end.asked == s.asked
  {
    var first, drained := DrainPump(s);
    var second, ready := DrainSweeper(drained);
    steps, end := first + second, ready;
    RunAppend(s, first, drained, second, ready);
    RunKeeps(s, steps, end);
  }

  /** A sweep past all deadlines, and its notifications. */
  lemma SweepAndNotify(s: State) returns (steps: seq<Step>, end: State)
    requires Good(s) && AllTimed(s.maps) && s.pump == Idle && s.sweeping == []
    ensures IsRun(s, steps, end) && Internal(steps) && Good(end) && Quiet(end) && end.asked == s.asked
  {
    var sweep := SweepAll(s);
    var notify, last := DrainSweeper(Next(s, sweep));
    steps := StepThen(s, sweep, notify, last);
    end := last;
    RunKeeps(s, steps, end);
  }

  /** No request can be lost: from every reachable state in which the pending calls have deadlines
      the proxy alone, without another word from child or client, can come to a state in which every
      request has been settled exactly once. */
  lemma EverythingCanSettle(s: State) returns (steps: seq<Step>, end: State)
    requires Good(s) && AllTimed(s.maps)
    ensures IsRun(s, steps, end) && Internal(steps)
    ensures Quiet(end) && end.maps.inflight == map[] && AllSettled(end) && end.asked == s.asked
  {
    var first, ready := Drain(s);
    var second, last := SweepAndNotify(ready);
    steps, end := first + second, last;
    RunAppend(s, first, ready, second, last);
    QuietIsSettled(end);
  }
}
