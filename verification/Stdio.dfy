/** The MCP stdio proxy (internal/mcp/stdio.go).  The client pump, the child pump and the
    sweeper share two maps under one mutex; a step here is one critical section or one frame
    written to the client. */
module Stdio {
  import opened Outcomes

  type Id = string

  /** `deadline` is absent when the request timeout is disabled. */
  datatype PendingCall = PendingCall(tool: string, args: string, hash: string, deadline: Option<int>)
  datatype Inflight = Inflight(waiters: seq<Id>, deadline: Option<int>)

  datatype Maps = Maps(pending: map<Id, PendingCall>, inflight: map<string, Inflight>)

  const EMPTY := Maps(map[], map[])

  // ---- the critical sections

  /** A call the pipeline wants forwarded: queue behind a sibling or become the leader. */
  function Enqueue(m: Maps, id: Id, call: PendingCall): Maps {
    if call.hash in m.inflight then
      var ifc := m.inflight[call.hash];
      m.(inflight := m.inflight[call.hash := ifc.(waiters := ifc.waiters + [id])])
    else
      Maps(m.pending[id := call], m.inflight[call.hash := Inflight([], call.deadline)])
  }

  function Take(m: Maps, id: Id): Maps {
    m.(pending := m.pending - {id})
  }

  function Waiting(m: Maps, hash: string): seq<Id> {
    if hash in m.inflight then m.inflight[hash].waiters else []
  }

  function Release(m: Maps, hash: string): Maps {
    m.(inflight := m.inflight - {hash})
  }

  predicate Overdue(m: Maps, now: int, id: Id) {
    id in m.pending && m.pending[id].deadline.Some? && now > m.pending[id].deadline.value
  }

  /** One turn of the expiry loop, and the ids it decides to notify. */
  function ExpireOne(m: Maps, id: Id): Maps
    requires id in m.pending
  {
    Release(Take(m, id), m.pending[id].hash)
  }

  function Notified(m: Maps, id: Id): seq<Id>
    requires id in m.pending
  {
    [id] + Waiting(m, m.pending[id].hash)
  }

  /** The expiry loop in some iteration order of the pending map. */
  function Expire(m: Maps, order: seq<Id>): (r: (Maps, seq<Id>))
    requires Pending(m, order)
    ensures forall id :: id in r.0.pending <==> id in m.pending && id !in order
    ensures forall id :: id in r.0.pending ==> r.0.pending[id] == m.pending[id]
    decreases |order|
  {
    if order == [] then (m, [])
    else
      var last := order[|order| - 1];
      var (rest, ids) := Expire(m, order[..|order| - 1]);
      assert order == order[..|order| - 1] + [last];
      (ExpireOne(rest, last), ids + Notified(rest, last))
  }

  predicate Distinct(xs: seq<Id>) {
    forall i, j :: 0 <= i < j < |xs| ==> xs[i] != xs[j]
  }

  predicate Pending(m: Maps, order: seq<Id>) {
    Distinct(order) && forall i :: 0 <= i < |order| ==> order[i] in m.pending
  }

  /** `order` lists the overdue leaders. */
  ghost predicate IsExpiry(m: Maps, now: int, order: seq<Id>) {
    && Pending(m, order)
    && (forall i :: 0 <= i < |order| ==> Overdue(m, now, order[i]))
    && (forall id :: Overdue(m, now, id) ==> id in order)
  }

  class StdioHandler {
    var pending: map<Id, PendingCall>
    var inflight: map<string, Inflight>

    ghost function View(): Maps
      reads this
    {
      Maps(pending, inflight)
    }

    constructor ()
      ensures View() == EMPTY
    {
      pending, inflight := map[], map[];
    }

    /** The default case of the client pump; reports whether the frame goes to the child. */
    method Dispatch(id: Id, call: PendingCall) returns (forward: bool)
      modifies this
      ensures View() == Enqueue(old(View()), id, call)
      ensures forward <==> call.hash !in old(inflight)
    {
      if call.hash in inflight {
        var ifc := inflight[call.hash];
        inflight := inflight[call.hash := ifc.(waiters := ifc.waiters + [id])];
        return false;
      }
      pending := pending[id := call];
      inflight := inflight[call.hash := Inflight([], call.deadline)];
      return true;
    }

    /** First half of `maybeCacheResponse`. */
    method TakePending(id: Id) returns (call: Option<PendingCall>)
      modifies this
      ensures View() == Take(old(View()), id)
      ensures call == if id in old(pending) then Some(old(pending)[id]) else None
    {
      if id !in pending {
        assert pending - {id} == pending;
        return None;
      }
      call := Some(pending[id]);
      pending := pending - {id};
    }

    /** Second half, after the response has been cached. */
    method CollectWaiters(hash: string) returns (waiters: seq<Id>)
      modifies this
      ensures View() == Release(old(View()), hash)
      ensures waiters == Waiting(old(View()), hash)
    {
      waiters := [];
      if hash in inflight { waiters := inflight[hash].waiters; }
      inflight := inflight - {hash};
    }

    method ExpireCall(id: Id) returns (batch: seq<Id>)
      requires id in pending
      modifies this
      ensures View() == ExpireOne(old(View()), id)
      ensures batch == Notified(old(View()), id)
    {
      var call := pending[id];
      batch := [id];
      if call.hash in inflight {
        batch := batch + inflight[call.hash].waiters;
        inflight := inflight - {call.hash};
      }
      pending := pending - {id};
      assert old(inflight) - {call.hash} == inflight;
    }

    /** `expireAt`, up to writing the errors. */
    method ExpireAt(now: int) returns (ids: seq<Id>, ghost order: seq<Id>)
      modifies this
      ensures IsExpiry(old(View()), now, order)
      ensures (View(), ids) == Expire(old(View()), order)
    {
      ghost var start := View();
      ids, order := [], [];
      var left := pending.Keys;
      while left != {}
        invariant Sweeping(start, now, left, order)
        invariant (View(), ids) == Expire(start, order)
        decreases |left|
      {
        var id :| id in left;
        SweepOn(start, now, left, order, id);
        left := left - {id};
        var call := pending[id];
        if call.deadline.Some? && now > call.deadline.value {
          ExpireNext(start, order, id);
          var batch := ExpireCall(id);
          ids := ids + batch;
          order := order + [id];
        }
      }
    }
  }


  /** The expiry loop has dealt with everything outside `left`. */
  ghost predicate Sweeping(m: Maps, now: int, left: set<Id>, order: seq<Id>) {
    && left <= m.pending.Keys
    && Pending(m, order)
    && (forall i :: 0 <= i < |order| ==> Overdue(m, now, order[i]) && order[i] !in left)
    && (forall id :: Overdue(m, now, id) ==> id in left || id in order)
  }

  lemma SweepOn(m: Maps, now: int, left: set<Id>, order: seq<Id>, id: Id)
    requires Sweeping(m, now, left, order) && id in left
    ensures id in m.pending && id !in order && id in Expire(m, order).0.pending
    ensures Expire(m, order).0.pending[id] == m.pending[id]
    ensures Sweeping(m, now, left - {id}, if Overdue(m, now, id) then order + [id] else order)
  {
  }

  lemma ExpireNext(m: Maps, order: seq<Id>, id: Id)
    requires Pending(m, order) && id in m.pending && id !in order
    ensures Pending(m, order + [id])
    ensures var (rest, ids) := Expire(m, order);
            id in rest.pending && Expire(m, order + [id]) == (ExpireOne(rest, id), ids + Notified(rest, id))
  {
    assert (order + [id])[..|order|] == order;
  }
}
