/** Every interleaving of the three actors of the stdio proxy. */
module StdioRuns {
  import opened Outcomes
  import opened Stdio

  /** Where the child pump is: between frames, caching a leader's response with the lock
      released, about to write the response, or copying it to the coalesced requests. */
  datatype Pump =
    | Idle
    | Caching(leader: Id, call: PendingCall)
    | Replying(leader: Id, solicited: bool, waiters: seq<Id>)
    | Fanning(leader: Id, waiters: seq<Id>)

  /** Frames written to the client on behalf of a request: the child's own response to a pending
      leader, a response nobody was waiting for (late or unsolicited), a copy of the leader's
      response, a timeout error. */
  datatype Frame = Own(id: Id) | PassedOn(id: Id) | Fanned(id: Id, leader: Id) | TimedOut(id: Id)

  /** `asked` and `queued` record the past: the hash every request came with, and the requests
      that were queued behind a leader. */
  datatype State = State(
    maps: Maps, pump: Pump, sweeping: seq<Id>, out: seq<Frame>,
    asked: map<Id, string>, queued: set<Id>)

  const START := State(EMPTY, Idle, [], [], map[], {})

  datatype Step =
    | Call(id: Id, call: PendingCall)       // client pump, critical section
    | Respond(id: Id)                       // child pump: a response frame arrives
    | Cached                                // child pump: cache written, waiters collected
    | Write                                 // child pump: next frame to the client
    | Sweep(now: int, order: seq<Id>)       // sweeper, critical section
    | Notify                                // sweeper: next timeout error

  /** Request ids are used once, as section 4 of JSON-RPC 2.0 has clients do.  A frame without an id
      is stored under the empty one, which no response can carry; `StdioFrames.ReuseOrphans` says
      what a second such frame does. */
  ghost predicate Enabled(s: State, step: Step) {
    match step
    case Call(id, call) => id !in s.asked
    case Respond(id) => s.pump.Idle? && id != ""
    case Cached => s.pump.Caching?
    case Write => s.pump.Replying? || s.pump.Fanning?
    case Sweep(now, order) => s.sweeping == [] && IsExpiry(s.maps, now, order)
    case Notify => s.sweeping != []
  }

  ghost function Next(s: State, step: Step): State
    requires Enabled(s, step)
  {
    match step
    case Call(id, call) =>
      s.(maps := Enqueue(s.maps, id, call), asked := s.asked[id := call.hash],
         queued := if call.hash in s.maps.inflight then s.queued + {id} else s.queued)
    case Respond(id) =>
      s.(maps := Take(s.maps, id),
         pump := if id in s.maps.pending then Caching(id, s.maps.pending[id]) else Replying(id, false, []))
    case Cached =>
      s.(maps := Release(s.maps, s.pump.call.hash),
         pump := Replying(s.pump.leader, true, Waiting(s.maps, s.pump.call.hash)))
    case Write =>
      (match s.pump
       case Replying(leader, solicited, waiters) =>
         s.(pump := Fanning(leader, waiters), out := s.out + [if solicited then Own(leader) else PassedOn(leader)])
       case Fanning(leader, waiters) =>
         if waiters == [] then s.(pump := Idle)
         else s.(pump := Fanning(leader, waiters[1..]), out := s.out + [Fanned(waiters[0], leader)])
       case _ => s)
    case Sweep(now, order) =>
      s.(maps := Expire(s.maps, order).0, sweeping := Expire(s.maps, order).1)
    case Notify =>
      s.(sweeping := s.sweeping[1..], out := s.out + [TimedOut(s.sweeping[0])])
  }

  ghost predicate IsRun(s: State, steps: seq<Step>, end: State)
    decreases |steps|
  {
    if steps == [] then s == end
    else Enabled(s, steps[0]) && IsRun(Next(s, steps[0]), steps[1..], end)
  }

  // ---- ownership

  function Hashes(pending: map<Id, PendingCall>): set<string> {
    set id | id in pending :: pending[id].hash
  }

  function BeingCached(pump: Pump): set<string> {
    if pump.Caching? then {pump.call.hash} else {}
  }

  /** Every in-flight hash has exactly one owner, a pending leader or the response now being
      cached, and every owner's hash is in flight. */
  ghost predicate Owned(m: Maps, caching: set<string>) {
    && (forall a, b :: a in m.pending && b in m.pending && a != b ==> m.pending[a].hash != m.pending[b].hash)
    && m.inflight.Keys == Hashes(m.pending) + caching
    && Hashes(m.pending) !! caching
  }

  lemma HashesRemove(m: Maps, id: Id, caching: set<string>)
    requires Owned(m, caching) && id in m.pending
    ensures Hashes(m.pending - {id}) == Hashes(m.pending) - {m.pending[id].hash}
  {
    var rest := m.pending - {id};
    assert forall a :: a in rest ==> rest[a] == m.pending[a];
    forall h | h in Hashes(m.pending) && h != m.pending[id].hash ensures h in Hashes(rest) {
      var a :| a in m.pending && m.pending[a].hash == h;
      assert a in rest && rest[a].hash == h;
    }
  }

  lemma HashesInsert(pending: map<Id, PendingCall>, id: Id, call: PendingCall)
    requires id !in pending
    ensures Hashes(pending[id := call]) == Hashes(pending) + {call.hash}
  {
    var more := pending[id := call];
    assert more[id].hash == call.hash;
    forall h | h in Hashes(pending) ensures h in Hashes(more) {
      var a :| a in pending && pending[a].hash == h;
      assert more[a].hash == h;
    }
  }

  lemma EnqueueOwned(m: Maps, caching: set<string>, id: Id, call: PendingCall)
    requires Owned(m, caching) && id !in m.pending
    ensures Owned(Enqueue(m, id, call), caching)
  {
    if call.hash !in m.inflight {
      HashesInsert(m.pending, id, call);
      forall a | a in m.pending ensures m.pending[a].hash != call.hash {
        assert m.pending[a].hash in Hashes(m.pending);
      }
    }
  }

  lemma TakeOwned(m: Maps, id: Id)
    requires Owned(m, {}) && id in m.pending
    ensures Owned(Take(m, id), {m.pending[id].hash})
  {
    HashesRemove(m, id, {});
    assert m.pending[id].hash in Hashes(m.pending);
  }

  lemma ReleaseOwned(m: Maps, hash: string)
    requires Owned(m, {hash})
    ensures Owned(Release(m, hash), {})
  {
  }

  lemma ExpireOneOwned(m: Maps, caching: set<string>, id: Id)
    requires Owned(m, caching) && id in m.pending
    ensures Owned(ExpireOne(m, id), caching)
    ensures m.pending[id].hash in m.inflight
  {
    HashesRemove(m, id, caching);
    assert m.pending[id].hash in Hashes(m.pending);
  }

  lemma {:induction false} ExpireOwned(m: Maps, caching: set<string>, order: seq<Id>)
    requires Owned(m, caching) && Pending(m, order)
    ensures Owned(Expire(m, order).0, caching)
    decreases |order|
  {
    if order != [] {
      var shorter := order[..|order| - 1];
      ExpireOwned(m, caching, shorter);
      ExpireOneOwned(Expire(m, shorter).0, caching, order[|order| - 1]);
    }
  }

  /** The one way to break ownership is to reuse the id of a pending leader for a call that is
      forwarded: its old hash then has no owner. */
  lemma EnqueueKeepsOwnershipIff(m: Maps, caching: set<string>, id: Id, call: PendingCall)
    requires Owned(m, caching)
    ensures Owned(Enqueue(m, id, call), caching) <==> id !in m.pending || call.hash in m.inflight
  {
    if id !in m.pending {
      EnqueueOwned(m, caching, id, call);
    } else if call.hash !in m.inflight {
      var lost := m.pending[id].hash;
      assert lost in Hashes(m.pending);
      var m' := Enqueue(m, id, call);
      forall a | a in m'.pending ensures m'.pending[a].hash != lost {
        if a == id { assert m'.pending[a].hash == call.hash; }
      }
      assert lost !in Hashes(m'.pending) && lost in m'.inflight.Keys;
    }
  }

  // ---- conservation

  /** All queued request ids. */
  ghost function Bag(inflight: map<string, Inflight>): multiset<Id>
    decreases |inflight|
  {
    if inflight == map[] then multiset{}
    else
      var h :| h in inflight;
      Shrinks(inflight, h);
      multiset(inflight[h].waiters) + Bag(inflight - {h})
  }

  lemma Shrinks(inflight: map<string, Inflight>, h: string)
    requires h in inflight
    ensures |inflight - {h}| < |inflight|
  {
    assert (inflight - {h}).Keys == inflight.Keys - {h};
  }

  lemma {:induction false} BagRemove(inflight: map<string, Inflight>, h: string)
    requires h in inflight
    ensures Bag(inflight) == multiset(inflight[h].waiters) + Bag(inflight - {h})
    decreases |inflight|
  {
    var g :| g in inflight && Bag(inflight) == multiset(inflight[g].waiters) + Bag(inflight - {g});
    if g != h {
      Shrinks(inflight, g);
      Shrinks(inflight, h);
      BagRemove(inflight - {g}, h);
      BagRemove(inflight - {h}, g);
      assert inflight - {g} - {h} == inflight - {h} - {g};
    }
  }

  lemma BagUpdate(inflight: map<string, Inflight>, h: string, ifc: Inflight)
    ensures Bag(inflight[h := ifc]) == multiset(ifc.waiters) + Bag(inflight - {h})
  {
    BagRemove(inflight[h := ifc], h);
    assert inflight[h := ifc] - {h} == inflight - {h};
  }

  /** How many frames settle a request. */
  function Settled(out: seq<Frame>, id: Id): nat {
    if out == [] then 0
    else Settled(out[..|out| - 1], id) + if Settles(out[|out| - 1], id) then 1 else 0
  }

  predicate Settles(f: Frame, id: Id) { !f.PassedOn? && f.id == id }

  lemma SettledAppend(out: seq<Frame>, f: Frame, id: Id)
    ensures Settled(out + [f], id) == Settled(out, id) + if Settles(f, id) then 1 else 0
  {
    assert (out + [f])[..|out|] == out;
  }

  function Count(ids: seq<Id>, id: Id): nat {
    if ids == [] then 0 else (if ids[0] == id then 1 else 0) + Count(ids[1..], id)
  }

  lemma {:induction false} CountIsMultiset(ids: seq<Id>, id: Id)
    ensures Count(ids, id) == multiset(ids)[id]
  {
    if ids != [] {
      HeadOff(ids);
      CountIsMultiset(ids[1..], id);
    }
  }

  /** How often the child pump still has to answer a request. */
  function PumpHolds(pump: Pump, id: Id): nat {
    match pump
    case Idle => 0
    case Caching(leader, _) => if leader == id then 1 else 0
    case Replying(leader, solicited, waiters) => (if solicited && leader == id then 1 else 0) + Count(waiters, id)
    case Fanning(_, waiters) => Count(waiters, id)
  }

  ghost function InMaps(m: Maps): multiset<Id> {
    multiset(m.pending.Keys) + Bag(m.inflight)
  }

  /** In how many places a request is: pending leaders, queued waiters, the hands of the child pump
      and the sweeper, frames that settled it. */
  ghost function Places(s: State, id: Id): nat {
    InMaps(s.maps)[id] + PumpHolds(s.pump, id) + Count(s.sweeping, id) + Settled(s.out, id)
  }

  /** Every request ever dispatched is in exactly one place, and nothing else is anywhere. */
  ghost predicate Conserved(s: State) {
    forall id: Id :: PlacedOnce(s, id)
  }

  ghost predicate PlacedOnce(s: State, id: Id) {
    Places(s, id) == if id in s.asked then 1 else 0
  }

  lemma KeysInsert<T>(m: map<Id, T>, id: Id, v: T)
    requires id !in m
    ensures multiset(m[id := v].Keys) == multiset(m.Keys) + multiset{id}
  {
    assert m[id := v].Keys == m.Keys + {id};
  }

  lemma KeysRemove<T>(m: map<Id, T>, id: Id)
    requires id in m
    ensures multiset(m.Keys) == multiset((m - {id}).Keys) + multiset{id}
  {
    assert m.Keys == (m - {id}).Keys + {id};
  }

  lemma QueueConserves(m: Maps, id: Id, call: PendingCall)
    requires call.hash in m.inflight
    ensures Bag(Enqueue(m, id, call).inflight) == Bag(m.inflight) + multiset{id}
  {
    var ifc := m.inflight[call.hash];
    BagUpdate(m.inflight, call.hash, ifc.(waiters := ifc.waiters + [id]));
    BagRemove(m.inflight, call.hash);
    assert multiset(ifc.waiters + [id]) == multiset(ifc.waiters) + multiset{id};
  }

  lemma LeadConserves(m: Maps, id: Id, call: PendingCall)
    requires call.hash !in m.inflight
    ensures Bag(Enqueue(m, id, call).inflight) == Bag(m.inflight)
  {
    BagUpdate(m.inflight, call.hash, Inflight([], call.deadline));
    assert m.inflight - {call.hash} == m.inflight;
  }

  lemma EnqueueConserves(m: Maps, id: Id, call: PendingCall)
    requires id !in m.pending
    ensures InMaps(Enqueue(m, id, call)) == InMaps(m) + multiset{id}
  {
    if call.hash in m.inflight {
      QueueConserves(m, id, call);
    } else {
      LeadConserves(m, id, call);
      KeysInsert(m.pending, id, call);
    }
  }

  lemma ReleaseConserves(m: Maps, hash: string)
    ensures InMaps(m) == InMaps(Release(m, hash)) + multiset(Waiting(m, hash))
  {
    if hash in m.inflight {
      BagRemove(m.inflight, hash);
    } else {
      assert m.inflight - {hash} == m.inflight;
    }
  }

  lemma TakeConserves(m: Maps, id: Id)
    ensures InMaps(m) == InMaps(Take(m, id)) + if id in m.pending then multiset{id} else multiset{}
  {
    if id in m.pending {
      KeysRemove(m.pending, id);
    } else {
      assert m.pending - {id} == m.pending;
    }
  }

  lemma ExpireOneConserves(m: Maps, id: Id)
    requires id in m.pending
    ensures InMaps(m) == InMaps(ExpireOne(m, id)) + multiset(Notified(m, id))
  {
    TakeConserves(m, id);
    ReleaseConserves(Take(m, id), m.pending[id].hash);
  }

  lemma ExpireOneMore(m: Maps, order: seq<Id>)
    requires Pending(m, order) && order != []
    ensures var shorter, last := order[..|order| - 1], order[|order| - 1];
      && last in Expire(m, shorter).0.pending
      && Expire(m, order).0 == ExpireOne(Expire(m, shorter).0, last)
      && Expire(m, order).1 == Expire(m, shorter).1 + Notified(Expire(m, shorter).0, last)
  {
    assert order == order[..|order| - 1] + [order[|order| - 1]];
  }

  lemma {:induction false} ExpireConserves(m: Maps, order: seq<Id>)
    requires Pending(m, order)
    ensures InMaps(m) == InMaps(Expire(m, order).0) + multiset(Expire(m, order).1)
    decreases |order|
  {
    if order != [] {
      var shorter, last := order[..|order| - 1], order[|order| - 1];
      ExpireConserves(m, shorter);
      ExpireOneMore(m, order);
      var rest, ids := Expire(m, shorter).0, Expire(m, shorter).1;
      ExpireOneConserves(rest, last);
      Joined(ids, Notified(rest, last));
    }
  }

  lemma Joined(a: seq<Id>, b: seq<Id>)
    ensures multiset(a + b) == multiset(a) + multiset(b)
  {
  }

  lemma HeadOff(xs: seq<Id>)
    requires xs != []
    ensures multiset(xs) == multiset{xs[0]} + multiset(xs[1..])
  {
    assert xs == [xs[0]] + xs[1..];
  }

  lemma CallPlaces(s: State, id: Id, call: PendingCall, x: Id)
    requires Enabled(s, Call(id, call)) && id !in s.maps.pending
    ensures Places(Next(s, Call(id, call)), x) == Places(s, x) + if x == id then 1 else 0
  {
    EnqueueConserves(s.maps, id, call);
  }

  lemma TakeCount(m: Maps, id: Id, x: Id)
    ensures InMaps(m)[x] == InMaps(Take(m, id))[x] + if id in m.pending && id == x then 1 else 0
  {
    TakeConserves(m, id);
  }

  lemma RespondPlaces(s: State, id: Id, x: Id)
    requires Enabled(s, Respond(id))
    ensures Places(Next(s, Respond(id)), x) == Places(s, x)
  {
    TakeCount(s.maps, id, x);
  }

  lemma ReleaseCount(m: Maps, hash: string, x: Id)
    ensures InMaps(m)[x] == InMaps(Release(m, hash))[x] + Count(Waiting(m, hash), x)
  {
    ReleaseConserves(m, hash);
    CountIsMultiset(Waiting(m, hash), x);
  }

  lemma CachedPlaces(s: State, x: Id)
    requires Enabled(s, Cached)
    ensures Places(Next(s, Cached), x) == Places(s, x)
  {
    var leader, hash := s.pump.leader, s.pump.call.hash;
    ReleaseCount(s.maps, hash, x);
    Collected(s, Release(s.maps, hash), Replying(leader, true, Waiting(s.maps, hash)), x);
  }

  lemma Collected(s: State, maps: Maps, pump: Pump, x: Id)
    requires InMaps(maps)[x] + PumpHolds(pump, x) == InMaps(s.maps)[x] + PumpHolds(s.pump, x)
    ensures Places(s.(maps := maps, pump := pump), x) == Places(s, x)
  {
  }

  /** One frame is written and what it settles leaves the pump's hands. */
  lemma FramePlaces(s: State, f: Frame, pump: Pump, x: Id)
    requires PumpHolds(s.pump, x) == PumpHolds(pump, x) + if Settles(f, x) then 1 else 0
    ensures Places(s.(pump := pump, out := s.out + [f]), x) == Places(s, x)
  {
    SettledAppend(s.out, f, x);
    HandedOver(s, pump, s.out + [f], x);
  }

  lemma HandedOver(s: State, pump: Pump, out: seq<Frame>, x: Id)
    requires PumpHolds(pump, x) + Settled(out, x) == PumpHolds(s.pump, x) + Settled(s.out, x)
    ensures Places(s.(pump := pump, out := out), x) == Places(s, x)
  {
  }

  lemma WritePlaces(s: State, x: Id)
    requires Enabled(s, Write)
    ensures Places(Next(s, Write), x) == Places(s, x)
  {
    match s.pump
    case Replying(leader, solicited, waiters) =>
      FramePlaces(s, if solicited then Own(leader) else PassedOn(leader), Fanning(leader, waiters), x);
    case Fanning(leader, waiters) =>
      if waiters != [] { FramePlaces(s, Fanned(waiters[0], leader), Fanning(leader, waiters[1..]), x); }
    case _ =>
  }

  lemma ExpireCount(m: Maps, order: seq<Id>, x: Id)
    requires Pending(m, order)
    ensures InMaps(m)[x] == InMaps(Expire(m, order).0)[x] + Count(Expire(m, order).1, x)
  {
    ExpireConserves(m, order);
    CountIsMultiset(Expire(m, order).1, x);
  }

  lemma SweepPlaces(s: State, now: int, order: seq<Id>, x: Id)
    requires Enabled(s, Sweep(now, order))
    ensures Places(Next(s, Sweep(now, order)), x) == Places(s, x)
  {
    ExpireCount(s.maps, order, x);
  }

  lemma NotifyPlaces(s: State, x: Id)
    requires Enabled(s, Notify)
    ensures Places(Next(s, Notify), x) == Places(s, x)
  {
    SettledAppend(s.out, TimedOut(s.sweeping[0]), x);
  }

  /** A request enters when it is called and is only ever moved. */
  lemma NextPlaces(s: State, step: Step, x: Id)
    requires Enabled(s, step) && s.maps.pending.Keys <= s.asked.Keys
    ensures Places(Next(s, step), x) == Places(s, x) + if step.Call? && step.id == x then 1 else 0
  {
    match step
    case Call(id, call) => CallPlaces(s, id, call, x);
    case Respond(id) => RespondPlaces(s, id, x);
    case Cached => CachedPlaces(s, x);
    case Write => WritePlaces(s, x);
    case Sweep(now, order) => SweepPlaces(s, now, order, x);
    case Notify => NotifyPlaces(s, x);
  }

  lemma NextPlacedOnce(s: State, step: Step, x: Id)
    requires Enabled(s, step) && s.maps.pending.Keys <= s.asked.Keys && PlacedOnce(s, x)
    ensures PlacedOnce(Next(s, step), x)
  {
    NextPlaces(s, step, x);
  }

  lemma NextConserves(s: State, step: Step)
    requires Enabled(s, step) && Conserved(s) && s.maps.pending.Keys <= s.asked.Keys
    ensures Conserved(Next(s, step))
  {
    var t := Next(s, step);
    forall x: Id ensures PlacedOnce(t, x) {
      assert PlacedOnce(s, x);
      NextPlacedOnce(s, step, x);
    }
  }

  // ---- who is who

  /** Leaders were never queued; queued requests wait under the hash they came with. */
  ghost predicate MapRoles(m: Maps, asked: map<Id, string>, queued: set<Id>) {
    && queued <= asked.Keys
    && (forall id :: id in m.pending ==> id in asked && asked[id] == m.pending[id].hash && id !in queued)
    && (forall h, i :: h in m.inflight && 0 <= i < |m.inflight[h].waiters| ==>
          Waits(m.inflight[h].waiters[i], h, asked, queued))
  }

  predicate Waits(id: Id, hash: string, asked: map<Id, string>, queued: set<Id>) {
    id in queued && id in asked && asked[id] == hash
  }

  predicate Leads(id: Id, hash: string, asked: map<Id, string>, queued: set<Id>) {
    id !in queued && id in asked && asked[id] == hash
  }

  ghost predicate PumpRoles(pump: Pump, asked: map<Id, string>, queued: set<Id>) {
    match pump
    case Idle => true
    case Caching(leader, call) => Leads(leader, call.hash, asked, queued)
    case Replying(leader, solicited, waiters) =>
      if solicited then Follow(leader, waiters, asked, queued) else waiters == []
    case Fanning(leader, waiters) => waiters == [] || Follow(leader, waiters, asked, queued)
  }

  ghost predicate Follow(leader: Id, waiters: seq<Id>, asked: map<Id, string>, queued: set<Id>) {
    && leader in asked && Leads(leader, asked[leader], asked, queued)
    && forall i :: 0 <= i < |waiters| ==> Waits(waiters[i], asked[leader], asked, queued)
  }

  /** A copied response goes to a queued request that came with its leader's hash. */
  ghost predicate FrameRole(f: Frame, asked: map<Id, string>, queued: set<Id>) {
    match f
    case Own(id) => id in asked && id !in queued
    case Fanned(id, leader) => leader in asked && leader !in queued && Waits(id, asked[leader], asked, queued)
    case _ => true
  }

  ghost predicate Roles(s: State) {
    && MapRoles(s.maps, s.asked, s.queued)
    && PumpRoles(s.pump, s.asked, s.queued)
    && forall i :: 0 <= i < |s.out| ==> FrameRole(s.out[i], s.asked, s.queued)
  }

  /** A new request disturbs nobody's role. */
  lemma RolesGrow(s: State, id: Id, hash: string, queued: set<Id>)
    requires Roles(s) && id !in s.asked && s.queued <= queued <= s.queued + {id}
    ensures var asked := s.asked[id := hash];
            && PumpRoles(s.pump, asked, queued)
            && (forall i :: 0 <= i < |s.out| ==> FrameRole(s.out[i], asked, queued))
            && MapRoles(s.maps, asked, queued)
  {
  }

  lemma CallRoles(s: State, id: Id, call: PendingCall)
    requires Enabled(s, Call(id, call)) && Roles(s)
    ensures Roles(Next(s, Call(id, call)))
  {
    var t := Next(s, Call(id, call));
    RolesGrow(s, id, call.hash, t.queued);
    if call.hash in s.maps.inflight {
      var before := s.maps.inflight[call.hash].waiters;
      var m := t.maps;
      forall h, i | h in m.inflight && 0 <= i < |m.inflight[h].waiters|
        ensures Waits(m.inflight[h].waiters[i], h, t.asked, t.queued)
      {
        if h == call.hash && i < |before| { assert m.inflight[h].waiters[i] == before[i]; }
      }
    }
  }

  lemma {:induction false} ExpireShrinks(m: Maps, order: seq<Id>)
    requires Pending(m, order)
    ensures forall h :: h in Expire(m, order).0.inflight ==>
      h in m.inflight && Expire(m, order).0.inflight[h] == m.inflight[h]
    decreases |order|
  {
    if order != [] { ExpireShrinks(m, order[..|order| - 1]); }
  }

  lemma NextRoles(s: State, step: Step)
    requires Enabled(s, step) && Roles(s)
    ensures Roles(Next(s, step))
  {
    match step
    case Call(id, call) => CallRoles(s, id, call);
    case Sweep(now, order) => ExpireShrinks(s.maps, order);
    case _ =>
  }

  // ---- every reachable state

  ghost predicate Good(s: State) {
    Owned(s.maps, BeingCached(s.pump)) && Conserved(s) && Roles(s)
  }

  lemma NextOwned(s: State, step: Step)
    requires Enabled(s, step) && Owned(s.maps, BeingCached(s.pump)) && Roles(s)
    ensures Owned(Next(s, step).maps, BeingCached(Next(s, step).pump))
  {
    match step
    case Call(id, call) => EnqueueOwned(s.maps, BeingCached(s.pump), id, call);
    case Respond(id) =>
      if id in s.maps.pending { TakeOwned(s.maps, id); } else { assert s.maps.pending - {id} == s.maps.pending; }
    case Cached => ReleaseOwned(s.maps, s.pump.call.hash);
    case Sweep(now, order) => ExpireOwned(s.maps, BeingCached(s.pump), order);
    case _ =>
  }

  lemma StartIsGood()
    ensures Good(START)
  {
    assert Bag(map[]) == multiset{};
    forall id: Id ensures PlacedOnce(START, id) {
    }
  }

  lemma {:induction false} RunKeeps(s: State, steps: seq<Step>, end: State)
    requires Good(s) && IsRun(s, steps, end)
    ensures Good(end)
    decreases |steps|
  {
    if steps != [] {
      NextOwned(s, steps[0]);
      NextConserves(s, steps[0]);
      NextRoles(s, steps[0]);
      RunKeeps(Next(s, steps[0]), steps[1..], end);
    }
  }

  /** In every interleaving: pending calls have distinct hashes, each in flight; each in-flight
      hash has exactly one owner; every request is in exactly one place. */
  lemma EveryRunIsGood(steps: seq<Step>, end: State)
    requires IsRun(START, steps, end)
    ensures Owned(end.maps, BeingCached(end.pump)) && Conserved(end) && Roles(end)
  {
    StartIsGood();
    RunKeeps(START, steps, end);
  }

  /** How often a queued request was answered: a copy of its leader's frame or a timeout. */
  ghost function Answers(out: seq<Frame>, id: Id): nat {
    if out == [] then 0
    else
      var f := out[|out| - 1];
      Answers(out[..|out| - 1], id) + if (f.Fanned? || f.TimedOut?) && f.id == id then 1 else 0
  }

  lemma {:induction false} AnswersAreSettled(out: seq<Frame>, id: Id, asked: map<Id, string>, queued: set<Id>)
    requires id in queued && forall i :: 0 <= i < |out| ==> FrameRole(out[i], asked, queued)
    ensures Answers(out, id) == Settled(out, id)
  {
    if out != [] {
      assert FrameRole(out[|out| - 1], asked, queued);
      AnswersAreSettled(out[..|out| - 1], id, asked, queued);
    }
  }

  /** Over every run, a request once queued behind a leader is still queued, or in the hands of
      the pump or the sweeper, or has been answered; exactly one of these, exactly once. */
  lemma WaiterAnsweredOnce(steps: seq<Step>, end: State, id: Id)
    requires IsRun(START, steps, end) && id in end.queued
    ensures Bag(end.maps.inflight)[id] + PumpHolds(end.pump, id) + Count(end.sweeping, id) + Answers(end.out, id) == 1
  {
    EveryRunIsGood(steps, end);
    AnswersAreSettled(end.out, id, end.asked, end.queued);
    assert PlacedOnce(end, id) && id !in end.maps.pending;
  }

  /** Nothing is pending or in hand. */
  predicate Quiet(s: State) {
    s.maps.pending == map[] && s.pump == Idle && s.sweeping == []
  }

  ghost predicate AllSettled(s: State) {
    forall id: Id :: Settled(s.out, id) == if id in s.asked then 1 else 0
  }

  lemma QuietIsSettled(s: State)
    requires Good(s) && Quiet(s)
    ensures s.maps.inflight == map[] && AllSettled(s)
  {
    assert s.maps.inflight.Keys == {};
    assert Bag(map[]) == multiset{};
    forall id: Id ensures Settled(s.out, id) == if id in s.asked then 1 else 0 {
      assert PlacedOnce(s, id) && Places(s, id) == Settled(s.out, id);
    }
  }

  /** When nothing is pending or in hand, every request has been settled by exactly one frame. */
  lemma QuiescentRunSettlesAll(steps: seq<Step>, end: State)
    requires IsRun(START, steps, end) && Quiet(end)
    ensures end.maps.inflight == map[] && AllSettled(end)
  {
    EveryRunIsGood(steps, end);
    QuietIsSettled(end);
  }

  /** An expiry pass later than every deadline leaves no pending call, and in flight only the
      response that is being cached; both maps are empty if there is none. */
  lemma SweepEmpties(s: State, now: int, order: seq<Id>)
    requires Owned(s.maps, BeingCached(s.pump))
    requires Enabled(s, Sweep(now, order)) && forall id :: id in s.maps.pending ==> Overdue(s.maps, now, id)
    ensures Next(s, Sweep(now, order)).maps.pending == map[]
    ensures Next(s, Sweep(now, order)).maps.inflight.Keys == BeingCached(s.pump)
    ensures !s.pump.Caching? ==> Next(s, Sweep(now, order)).maps == EMPTY
  {
    ExpireOwned(s.maps, BeingCached(s.pump), order);
    var m := Expire(s.maps, order).0;
    assert m.pending == map[] by { assert forall id :: id !in m.pending; }
    assert m.inflight.Keys == BeingCached(s.pump);
  }

  // ---- what the guarantees do not cover

  ghost predicate Orphaned(s: State, hash: string) {
    hash in s.maps.inflight && hash !in Hashes(s.maps.pending) && hash !in BeingCached(s.pump)
  }

  lemma {:induction false} ExpireKeepsOrphan(m: Maps, order: seq<Id>, hash: string)
    requires Pending(m, order) && hash in m.inflight && hash !in Hashes(m.pending)
    ensures var m' := Expire(m, order).0; hash in m'.inflight && hash !in Hashes(m'.pending)
    decreases |order|
  {
    if order != [] {
      var last := order[|order| - 1];
      ExpireKeepsOrphan(m, order[..|order| - 1], hash);
      assert m.pending[last].hash in Hashes(m.pending);
    }
  }

  /** A hash that lost its owner is stuck for good: no response and no sweep clears it. */
  lemma {:induction false} OrphanStays(s: State, steps: seq<Step>, end: State, hash: string)
    requires Orphaned(s, hash) && IsRun(s, steps, end)
    ensures Orphaned(end, hash)
    decreases |steps|
  {
    if steps != [] {
      var t := Next(s, steps[0]);
      match steps[0] {
        case Call(id, call) =>
          if call.hash !in s.maps.inflight {
            forall a | a in t.maps.pending ensures t.maps.pending[a].hash != hash {
              if a != id { assert s.maps.pending[a].hash in Hashes(s.maps.pending); }
            }
          }
        case Respond(id) =>
          if id in s.maps.pending { assert s.maps.pending[id].hash in Hashes(s.maps.pending); }
          forall a | a in t.maps.pending ensures t.maps.pending[a].hash != hash {
            assert s.maps.pending[a].hash in Hashes(s.maps.pending);
          }
        case Sweep(now, order) => ExpireKeepsOrphan(s.maps, order, hash);
        case _ =>
      }
      OrphanStays(t, steps[1..], end, hash);
    }
  }

  lemma RunOne(s: State, step: Step)
    requires Enabled(s, step)
    ensures IsRun(s, [step], Next(s, step))
  {
    assert [step][1..] == [];
  }

  lemma RunMore(s: State, step: Step, steps: seq<Step>, end: State)
    requires Enabled(s, step) && IsRun(Next(s, step), steps, end)
    ensures IsRun(s, [step] + steps, end)
  {
    assert ([step] + steps)[1..] == steps;
  }

  lemma {:induction false} RunAppend(s: State, first: seq<Step>, mid: State, second: seq<Step>, end: State)
    requires IsRun(s, first, mid) && IsRun(mid, second, end)
    ensures IsRun(s, first + second, end)
    decreases |first|
  {
    if first == [] {
      assert first + second == second;
    } else {
      RunAppend(Next(s, first[0]), first[1..], mid, second, end);
      assert (first + second)[1..] == first[1..] + second;
    }
  }
}
