/** Leaders and waiters (acquireLeader, releaseLeader, waitForLeader and the handle writes of
    doForward and runLeader in internal/pipeline/pipeline.go).  A handle is named by its
    position in the list of all handles ever allocated. */
module Coalescing {
  import opened Outcomes

  datatype Decision = Forward | Replay | Block | RateLimited | Forbidden
  datatype Kind = NoMatch | Exact | Semantic | Coalesced
  datatype Result = Result(decision: Decision, kind: Kind, hash: string, status: int, body: string)

  /** How a leader's forward ended: with a response, with an error beside a response, by a panic. */
  datatype Ending = Fresh(result: Result) | Failed(result: Result, err: string) | Panicked(msg: string)

  /** What a waiter comes back with. */
  datatype Verdict = Shared(result: Result) | LeaderFailed(err: string) | Cancelled

  /** `closes` counts how often `done` was closed; Go panics on the second time.  `owner` records
      which call allocated the handle. */
  datatype Handle = Handle(owner: nat, result: Option<Result>, err: Option<string>, closes: nat)

  datatype Table = Table(inflight: map<string, nat>, handles: seq<Handle>)

  // ---- the shared state and its critical sections

  function Acquired(t: Table, hash: string, owner: nat): Table {
    if hash in t.inflight then t
    else Table(t.inflight[hash := |t.handles|], t.handles + [Handle(owner, None, None, 0)])
  }

  function Written(h: Handle, ending: Ending): Handle {
    match ending
    case Fresh(result) => h.(result := Some(result))
    case Failed(result, err) => h.(result := Some(result), err := Some(err))
    case Panicked(msg) => h.(err := Some("forward panic: " + msg))
  }

  function Published(t: Table, h: nat, ending: Ending): Table
    requires h < |t.handles|
  {
    t.(handles := t.handles[h := Written(t.handles[h], ending)])
  }

  function Removed(t: Table, hash: string, h: nat): Table {
    if hash in t.inflight && t.inflight[hash] == h then t.(inflight := t.inflight - {hash}) else t
  }

  function Closed(t: Table, h: nat): Table
    requires h < |t.handles|
  {
    t.(handles := t.handles[h := t.handles[h].(closes := t.handles[h].closes + 1)])
  }

  /** A waiter's reading of a closed handle; an unset result is the zero `Result`. */
  function ReadHandle(h: Handle): Verdict {
    match h.err
    case Some(err) => LeaderFailed("leader failed: " + err)
    case None =>
      var r := if h.result.Some? then h.result.value else Result(Forward, NoMatch, "", 0, "");
      Shared(r.(decision := Replay, kind := Coalesced))
  }

  class Coalescer {
    var inflight: map<string, nat>
    var handles: seq<Handle>

    ghost function View(): Table
      reads this
    {
      Table(inflight, handles)
    }

    constructor ()
      ensures View() == Table(map[], [])
    {
      inflight, handles := map[], [];
    }

    method AcquireLeader(hash: string, caller: nat) returns (h: nat, leader: bool)
      modifies this
      ensures View() == Acquired(old(View()), hash, caller)
      ensures leader <==> hash !in old(inflight)
      ensures hash in inflight && h == inflight[hash]
      ensures leader ==> h == |old(handles)|
    {
      if hash in inflight {
        return inflight[hash], false;
      }
      h := |handles|;
      handles := handles + [Handle(caller, None, None, 0)];
      inflight := inflight[hash := h];
      leader := true;
    }

    method Publish(h: nat, ending: Ending)
      requires h < |handles|
      modifies this
      ensures View() == Published(old(View()), h, ending)
    {
      match ending
      case Fresh(result) => handles := handles[h := handles[h].(result := Some(result))];
      case Failed(result, err) =>
        handles := handles[h := handles[h].(result := Some(result))];
        handles := handles[h := handles[h].(err := Some(err))];
      case Panicked(msg) => handles := handles[h := handles[h].(err := Some("forward panic: " + msg))];
    }

    /** Remove under the mutex, then close; other calls may run in between. */
    method ReleaseLeader(hash: string, h: nat)
      requires h < |handles| && handles[h].closes == 0
      modifies this
      ensures View() == Closed(Removed(old(View()), hash, h), h)
    {
      if hash in inflight && inflight[hash] == h {
        inflight := inflight - {hash};
      }
      handles := handles[h := handles[h].(closes := handles[h].closes + 1)];
    }

    /** `waitForLeader` once the select has fired. */
    method Resume(h: nat, cancelled: bool) returns (v: Verdict)
      requires h < |handles| && (!cancelled ==> handles[h].closes > 0)
      ensures v == if cancelled then Verdict.Cancelled else ReadHandle(handles[h])
    {
      if cancelled { return Verdict.Cancelled; }
      if handles[h].err.Some? { return LeaderFailed("leader failed: " + handles[h].err.value); }
      var r := Result(Forward, NoMatch, "", 0, "");
      if handles[h].result.Some? { r := handles[h].result.value; }
      return Shared(r.(decision := Replay, kind := Coalesced));
    }
  }

  // ---- the protocol

  /** Where a call stands with respect to the table. */
  datatype Role =
    | Outside
    | Leading(h: nat)
    | Finished(h: nat, ending: Ending)     // result written, still in the map
    | Leaving(h: nat, ending: Ending)      // out of the map, `done` still open
    | Released(h: nat, ending: Ending)     // `done` closed
    | Waiting(h: nat)
    | Woken(h: nat, verdict: Verdict)

  /** `hashes[i]` is the fingerprint of call `i`. */
  datatype State = State(hashes: seq<string>, roles: seq<Role>, table: Table)

  datatype Step =
    | Acquire(i: nat)
    | Publish(i: nat, ending: Ending)
    | Remove(i: nat)
    | Close(i: nat)
    | Wake(i: nat)
    | Cancel(i: nat)

  predicate WellFormed(s: State) {
    && |s.hashes| == |s.roles|
    && forall i :: 0 <= i < |s.roles| && !s.roles[i].Outside? ==> s.roles[i].h < |s.table.handles|
  }

  predicate Enabled(s: State, step: Step)
    requires WellFormed(s)
  {
    && step.i < |s.roles|
    && match step
       case Acquire(i) => s.roles[i].Outside?
       case Publish(i, _) => s.roles[i].Leading?
       case Remove(i) => s.roles[i].Finished?
       case Close(i) => s.roles[i].Leaving?
       case Wake(i) => s.roles[i].Waiting? && s.table.handles[s.roles[i].h].closes > 0
       case Cancel(i) => s.roles[i].Waiting?
  }

  function Next(s: State, step: Step): State
    requires WellFormed(s) && Enabled(s, step)
  {
    var i := step.i;
    var role := s.roles[i];
    match step
    case Acquire(_) =>
      var t := Acquired(s.table, s.hashes[i], i);
      var role' := if s.hashes[i] in s.table.inflight then Waiting(s.table.inflight[s.hashes[i]])
                   else Leading(|s.table.handles|);
      State(s.hashes, s.roles[i := role'], t)
    case Publish(_, ending) =>
      State(s.hashes, s.roles[i := Finished(role.h, ending)], Published(s.table, role.h, ending))
    case Remove(_) =>
      State(s.hashes, s.roles[i := Leaving(role.h, role.ending)], Removed(s.table, s.hashes[i], role.h))
    case Close(_) =>
      State(s.hashes, s.roles[i := Released(role.h, role.ending)], Closed(s.table, role.h))
    case Wake(_) =>
      s.(roles := s.roles[i := Woken(role.h, ReadHandle(s.table.handles[role.h]))])
    case Cancel(_) =>
      s.(roles := s.roles[i := Woken(role.h, Verdict.Cancelled)])
  }

  /** The call forwards, or is about to, or is writing its outcome, on behalf of handle `h`. */
  predicate Holds(role: Role) { role.Leading? || role.Finished? }
  predicate Owns(role: Role) { Holds(role) || role.Leaving? || role.Released? }

  function Blank(owner: nat): Handle { Handle(owner, None, None, 0) }

  /** What a handle must look like at each stage of its leader. */
  predicate HandleMatches(h: Handle, i: nat, role: Role) {
    match role
    case Leading(_) => h == Blank(i)
    case Finished(_, ending) => h == Written(Blank(i), ending)
    case Leaving(_, ending) => h == Written(Blank(i), ending)
    case Released(_, ending) => h == Written(Blank(i), ending).(closes := 1)
    case _ => true
  }

  /** Handle `h` belongs to the call that allocated it. */
  predicate HandleOk(s: State, h: nat)
    requires h < |s.table.handles|
  {
    var o := s.table.handles[h].owner;
    o < |s.roles| && Owns(s.roles[o]) && s.roles[o].h == h
  }

  /** A leader's handle mirrors its stage, and is in the map exactly until it is removed. */
  predicate LeaderOk(s: State, i: nat)
    requires |s.hashes| == |s.roles| && i < |s.roles|
  {
    Owns(s.roles[i]) ==>
      && s.roles[i].h < |s.table.handles|
      && HandleMatches(s.table.handles[s.roles[i].h], i, s.roles[i])
      && (Holds(s.roles[i]) ==> s.hashes[i] in s.table.inflight && s.table.inflight[s.hashes[i]] == s.roles[i].h)
  }

  /** The map has no other entries. */
  predicate KeyOk(s: State, k: string)
    requires |s.hashes| == |s.roles| && k in s.table.inflight
  {
    && s.table.inflight[k] < |s.table.handles|
    && var o := s.table.handles[s.table.inflight[k]].owner;
       o < |s.roles| && Holds(s.roles[o]) && s.hashes[o] == k
  }

  /** A waiter waits on a handle of its own hash and brings back what that handle ends up holding. */
  predicate WaiterOk(s: State, i: nat)
    requires |s.hashes| == |s.roles| && i < |s.roles|
  {
    s.roles[i].Waiting? || s.roles[i].Woken? ==>
      && s.roles[i].h < |s.table.handles|
      && var h := s.table.handles[s.roles[i].h];
         && h.owner < |s.hashes| && s.hashes[h.owner] == s.hashes[i]
         && (s.roles[i].Woken? && s.roles[i].verdict != Verdict.Cancelled ==>
               h.closes == 1 && s.roles[i].verdict == ReadHandle(h))
  }

  ghost predicate Inv(s: State) {
    && |s.hashes| == |s.roles|
    && (forall h :: 0 <= h < |s.table.handles| ==> HandleOk(s, h))
    && (forall i :: 0 <= i < |s.roles| ==> LeaderOk(s, i))
    && (forall k :: k in s.table.inflight ==> KeyOk(s, k))
    && (forall i :: 0 <= i < |s.roles| ==> WaiterOk(s, i))
  }

  lemma InvWellFormed(s: State)
    requires Inv(s)
    ensures WellFormed(s)
  {
    forall i | 0 <= i < |s.roles| && !s.roles[i].Outside? ensures s.roles[i].h < |s.table.handles| {
      assert LeaderOk(s, i) && WaiterOk(s, i);
    }
  }

  /** Only the owner's role, and only its handle, differ between `s` and `t`. */
  predicate OnlyOwner(s: State, t: State, i: nat, h: nat) {
    && t.hashes == s.hashes && |t.roles| == |s.roles| == |s.hashes| && |t.table.handles| == |s.table.handles|
    && i < |s.roles| && h < |s.table.handles|
    && (forall j :: 0 <= j < |s.roles| && j != i ==> t.roles[j] == s.roles[j])
    && (forall g :: 0 <= g < |s.table.handles| && g != h ==> t.table.handles[g] == s.table.handles[g])
    && t.table.handles[h].owner == s.table.handles[h].owner == i
  }

  /** The owner of the still open handle `h` moves on; at most `h` leaves the map. */
  ghost predicate OwnerStep(s: State, t: State, i: nat, h: nat) {
    && OnlyOwner(s, t, i, h)
    && Owns(s.roles[i]) && !s.roles[i].Released? && s.roles[i].h == h
    && Owns(t.roles[i]) && t.roles[i].h == h && LeaderOk(t, i)
    && (forall k :: k in t.table.inflight ==> k in s.table.inflight && t.table.inflight[k] == s.table.inflight[k])
    && (forall k :: k in s.table.inflight && k !in t.table.inflight ==> s.table.inflight[k] == h)
    && (!Holds(t.roles[i]) ==> forall k :: k in t.table.inflight ==> t.table.inflight[k] != h)
  }

  lemma StageFixesHandle(h: Handle, i: nat, role: Role)
    requires Owns(role) && HandleMatches(h, i, role)
    ensures h.owner == i && h.closes == if role.Released? then 1 else 0
  {}

  lemma OwnerStepLeader(s: State, t: State, i: nat, h: nat, j: nat)
    requires Inv(s) && OwnerStep(s, t, i, h) && j < |s.roles| && j != i
    ensures LeaderOk(t, j)
  {
    assert LeaderOk(s, j) && t.roles[j] == s.roles[j];
    if Owns(s.roles[j]) {
      StageFixesHandle(s.table.handles[s.roles[j].h], j, s.roles[j]);
      assert s.roles[j].h != h;
    }
  }

  lemma OwnerStepWaiter(s: State, t: State, i: nat, h: nat, j: nat)
    requires Inv(s) && OwnerStep(s, t, i, h) && j < |s.roles| && j != i
    ensures WaiterOk(t, j)
  {
    assert WaiterOk(s, j) && t.roles[j] == s.roles[j];
    assert LeaderOk(s, i);
    StageFixesHandle(s.table.handles[h], i, s.roles[i]);
  }

  lemma OwnerStepKey(s: State, t: State, i: nat, h: nat, k: string)
    requires Inv(s) && OwnerStep(s, t, i, h) && k in t.table.inflight
    ensures KeyOk(t, k)
  {
    assert KeyOk(s, k);
    assert HandleOk(s, s.table.inflight[k]);
  }

  /** A step of the owner of an open handle disturbs nobody else. */
  lemma OwnerStepInv(s: State, t: State, i: nat, h: nat)
    requires Inv(s) && OwnerStep(s, t, i, h)
    ensures Inv(t)
  {
    forall g | 0 <= g < |t.table.handles| ensures HandleOk(t, g) {
      assert HandleOk(s, g);
    }
    forall j | 0 <= j < |t.roles| ensures LeaderOk(t, j) && WaiterOk(t, j) {
      if j != i { OwnerStepLeader(s, t, i, h, j); OwnerStepWaiter(s, t, i, h, j); }
    }
    forall k | k in t.table.inflight ensures KeyOk(t, k) {
      OwnerStepKey(s, t, i, h, k);
    }
  }

  /** The map points at a handle only under its owner's hash, and only while the owner holds it. */
  lemma MapNamesHolders(s: State, i: nat, k: string)
    requires Inv(s) && i < |s.roles| && Owns(s.roles[i])
    requires k in s.table.inflight && s.table.inflight[k] == s.roles[i].h
    ensures Holds(s.roles[i]) && k == s.hashes[i]
  {
    assert LeaderOk(s, i) && KeyOk(s, k);
  }

  lemma ReleaseInv(s: State, step: Step)
    requires Inv(s) && WellFormed(s) && Enabled(s, step) && (step.Remove? || step.Close?)
    ensures Inv(Next(s, step))
  {
    var i, t := step.i, Next(s, step);
    var h := s.roles[i].h;
    assert LeaderOk(s, i) && HandleOk(s, h);
    forall k | k in t.table.inflight ensures t.table.inflight[k] != h {
      if s.table.inflight[k] == h { MapNamesHolders(s, i, k); }
    }
    OwnerStepInv(s, t, i, h);
  }

  lemma LeadInv(s: State, i: nat)
    requires Inv(s) && i < |s.roles| && s.roles[i].Outside? && s.hashes[i] !in s.table.inflight
    requires WellFormed(s)
    ensures Inv(Next(s, Acquire(i)))
  {
    var t := Next(s, Acquire(i));
    var n := |s.table.handles|;
    forall g | 0 <= g < n + 1 ensures HandleOk(t, g) {
      if g < n { assert HandleOk(s, g); }
    }
    forall j | 0 <= j < |t.roles| ensures LeaderOk(t, j) && WaiterOk(t, j) {
      assert LeaderOk(s, j) && WaiterOk(s, j);
    }
    forall k | k in t.table.inflight ensures KeyOk(t, k) {
      if k != s.hashes[i] { assert KeyOk(s, k); }
    }
  }

  /** A step that changes one role from one that owns nothing to another keeps the rest. */
  lemma BystanderInv(s: State, i: nat, role: Role)
    requires Inv(s) && i < |s.roles| && !Owns(s.roles[i]) && !Owns(role)
    requires WaiterOk(s.(roles := s.roles[i := role]), i)
    ensures Inv(s.(roles := s.roles[i := role]))
  {
    var t := s.(roles := s.roles[i := role]);
    forall h | 0 <= h < |t.table.handles| ensures HandleOk(t, h) { assert HandleOk(s, h); }
    forall j | 0 <= j < |t.roles| ensures LeaderOk(t, j) && WaiterOk(t, j) {
      assert LeaderOk(s, j) && WaiterOk(s, j);
    }
    forall k | k in t.table.inflight ensures KeyOk(t, k) { assert KeyOk(s, k); }
  }

  lemma NextInv(s: State, step: Step)
    requires Inv(s) && WellFormed(s) && Enabled(s, step)
    ensures Inv(Next(s, step))
  {
    var i, t := step.i, Next(s, step);
    var role := s.roles[i];
    assert LeaderOk(s, i) && WaiterOk(s, i);
    match step
    case Acquire(_) =>
      if s.hashes[i] in s.table.inflight {
        assert KeyOk(s, s.hashes[i]);
        assert t == s.(roles := s.roles[i := t.roles[i]]);
        BystanderInv(s, i, t.roles[i]);
      } else {
        LeadInv(s, i);
      }
    case Wake(_) =>
      assert HandleOk(s, role.h) && LeaderOk(s, s.table.handles[role.h].owner);
      BystanderInv(s, i, t.roles[i]);
    case Cancel(_) => BystanderInv(s, i, t.roles[i]);
    case Publish(_, _) => OwnerStepInv(s, t, i, role.h);
    case _ => ReleaseInv(s, step);
  }

  // ---- what the invariant means

  /** At most one call per hash is between acquiring and leaving the map; its forward runs
      entirely within that stretch. */
  lemma OneForwardPerHash(s: State, i: nat, j: nat)
    requires Inv(s) && i < |s.roles| && j < |s.roles|
    requires Holds(s.roles[i]) && Holds(s.roles[j]) && s.hashes[i] == s.hashes[j]
    ensures i == j
  {
    assert LeaderOk(s, i) && LeaderOk(s, j);
    StageFixesHandle(s.table.handles[s.roles[i].h], i, s.roles[i]);
    StageFixesHandle(s.table.handles[s.roles[j].h], j, s.roles[j]);
  }

  lemma HolderOf(s: State, k: string) returns (i: nat)
    requires Inv(s) && k in s.table.inflight
    ensures i < |s.roles| && Holds(s.roles[i]) && s.hashes[i] == k
  {
    assert KeyOk(s, k);
    i := s.table.handles[s.table.inflight[k]].owner;
  }

  /** A handle is closed once its owner has released it, and not before; never twice. */
  lemma ClosedIffReleased(s: State, h: nat)
    requires Inv(s) && h < |s.table.handles|
    ensures s.table.handles[h].owner < |s.roles|
    ensures s.table.handles[h].closes == if s.roles[s.table.handles[h].owner].Released? then 1 else 0
  {
    assert HandleOk(s, h);
    var o := s.table.handles[h].owner;
    assert LeaderOk(s, o);
    StageFixesHandle(s.table.handles[h], o, s.roles[o]);
  }

  /** After `done` is closed nothing writes to the handle. */
  lemma ClosedIsFrozen(s: State, step: Step, h: nat)
    requires Inv(s) && WellFormed(s) && Enabled(s, step)
    requires h < |s.table.handles| && s.table.handles[h].closes > 0
    ensures h < |Next(s, step).table.handles| && Next(s, step).table.handles[h] == s.table.handles[h]
  {
    assert LeaderOk(s, step.i);
    if Owns(s.roles[step.i]) {
      StageFixesHandle(s.table.handles[s.roles[step.i].h], step.i, s.roles[step.i]);
    }
  }

  /** Only the leader that put an entry into the map takes it out or replaces it. */
  lemma OnlyLeaderRemoves(s: State, step: Step, k: string)
    requires Inv(s) && WellFormed(s) && Enabled(s, step) && k in s.table.inflight
    requires !(k in Next(s, step).table.inflight && Next(s, step).table.inflight[k] == s.table.inflight[k])
    ensures s.table.inflight[k] < |s.table.handles|
    ensures step == Remove(s.table.handles[s.table.inflight[k]].owner) && s.hashes[step.i] == k
  {
    assert KeyOk(s, k) && LeaderOk(s, step.i);
    if Owns(s.roles[step.i]) {
      StageFixesHandle(s.table.handles[s.roles[step.i].h], step.i, s.roles[step.i]);
    }
  }

  /** What siblings are told about a forward, in terms of the forward alone. */
  function Told(ending: Ending): Verdict {
    match ending
    case Fresh(result) => Shared(result.(decision := Replay, kind := Coalesced))
    case Failed(_, err) => LeaderFailed("leader failed: " + err)
    case Panicked(msg) => LeaderFailed("leader failed: " + ("forward panic: " + msg))
  }

  /** A waiter that was not cancelled returns its leader's outcome: the leader is a call with
      the same hash that has released its handle. */
  lemma WaiterHearsItsLeader(s: State, i: nat) returns (leader: nat)
    requires Inv(s) && i < |s.roles| && s.roles[i].Woken? && s.roles[i].verdict != Verdict.Cancelled
    ensures leader < |s.roles| && s.hashes[leader] == s.hashes[i]
    ensures s.roles[leader].Released? && s.roles[leader].h == s.roles[i].h
    ensures s.roles[i].verdict == Told(s.roles[leader].ending)
  {
    assert WaiterOk(s, i);
    leader := s.table.handles[s.roles[i].h].owner;
    ClosedIffReleased(s, s.roles[i].h);
    assert HandleOk(s, s.roles[i].h) && LeaderOk(s, leader);
  }

  // ---- progress

  /** Steps a call still has ahead of it at most. */
  function Rank(role: Role): nat {
    match role
    case Outside => 4
    case Leading(_) => 3
    case Finished(_, _) => 2
    case Leaving(_, _) => 1
    case Waiting(_) => 1
    case _ => 0
  }

  function Work(roles: seq<Role>): nat {
    if roles == [] then 0 else Rank(roles[0]) + Work(roles[1..])
  }

  lemma {:induction false} WorkUpdate(roles: seq<Role>, i: nat, role: Role)
    requires i < |roles|
    ensures Work(roles[i := role]) + Rank(roles[i]) == Work(roles) + Rank(role)
    decreases |roles|
  {
    if i == 0 {
      assert roles[0 := role][1..] == roles[1..];
    } else {
      assert roles[i := role][1..] == roles[1..][i - 1 := role];
      WorkUpdate(roles[1..], i - 1, role);
    }
  }

  lemma NextWorks(s: State, step: Step)
    requires WellFormed(s) && Enabled(s, step)
    ensures Work(Next(s, step).roles) < Work(s.roles)
  {
    WorkUpdate(s.roles, step.i, Next(s, step).roles[step.i]);
  }

  predicate Done(role: Role) { role.Released? || role.Woken? }

  /** Nobody is ever stuck: a call that is not done can step, or waits for one that can. */
  lemma NeverStuck(s: State, i: nat) returns (step: Step)
    requires Inv(s) && WellFormed(s) && i < |s.roles| && !Done(s.roles[i])
    ensures Enabled(s, step) && !step.Cancel?
    ensures step.i == i || (s.roles[i].Waiting? && Owns(s.roles[step.i]) && s.roles[step.i].h == s.roles[i].h)
  {
    match s.roles[i]
    case Outside => step := Acquire(i);
    case Leading(_) => step := Publish(i, Panicked(""));
    case Finished(_, _) => step := Remove(i);
    case Leaving(_, _) => step := Close(i);
    case Waiting(h) =>
      ClosedIffReleased(s, h);
      assert HandleOk(s, h);
      var o := s.table.handles[h].owner;
      step := match s.roles[o]
        case Leading(_) => Publish(o, Panicked(""))
        case Finished(_, _) => Remove(o)
        case Leaving(_, _) => Close(o)
        case _ => Wake(i);
  }

  // ---- runs

  ghost predicate IsStart(s: State) {
    && |s.hashes| == |s.roles| && s.table == Table(map[], [])
    && forall i :: 0 <= i < |s.roles| ==> s.roles[i].Outside?
  }

  predicate CanStep(s: State, step: Step) { WellFormed(s) && Enabled(s, step) }

  ghost predicate IsRun(s: State, steps: seq<Step>, end: State)
    decreases |steps|
  {
    if steps == [] then s == end
    else CanStep(s, steps[0]) && IsRun(Next(s, steps[0]), steps[1..], end)
  }

  /** Every reachable state satisfies the invariant; a closed handle keeps its contents to the
      end of the run; and a run has at most four steps per call, so no call waits forever. */
  lemma {:induction false} RunKeeps(s: State, steps: seq<Step>, end: State)
    requires Inv(s) && IsRun(s, steps, end)
    ensures Inv(end) && end.hashes == s.hashes && |s.table.handles| <= |end.table.handles|
    ensures forall h :: 0 <= h < |s.table.handles| && s.table.handles[h].closes > 0 ==>
      end.table.handles[h] == s.table.handles[h]
    ensures |steps| + Work(end.roles) <= Work(s.roles)
    decreases |steps|
  {
    if steps != [] {
      var t := Next(s, steps[0]);
      NextInv(s, steps[0]);
      NextWorks(s, steps[0]);
      RunKeeps(t, steps[1..], end);
      forall h | 0 <= h < |s.table.handles| && s.table.handles[h].closes > 0
        ensures end.table.handles[h] == s.table.handles[h]
      {
        ClosedIsFrozen(s, steps[0], h);
      }
    }
  }

  lemma {:induction false} WorkBound(roles: seq<Role>)
    ensures Work(roles) <= 4 * |roles|
  {
    if roles != [] { WorkBound(roles[1..]); }
  }

  /** Every run of `n` calls ends within `4 * n` steps, and one that cannot be continued has
      answered every call, closed every handle once and emptied the map. */
  lemma EveryRunSettles(s: State, steps: seq<Step>, end: State)
    requires IsStart(s) && IsRun(s, steps, end)
    ensures Inv(end) && |steps| <= 4 * |s.roles|
    ensures (forall step :: !CanStep(end, step)) ==>
      && (forall i :: 0 <= i < |end.roles| ==> Done(end.roles[i]))
      && (forall h :: 0 <= h < |end.table.handles| ==> end.table.handles[h].closes == 1)
      && end.table.inflight == map[]
  {
    RunKeeps(s, steps, end);
    WorkBound(s.roles);
    if forall step :: !CanStep(end, step) {
      InvWellFormed(end);
      forall i | 0 <= i < |end.roles| ensures Done(end.roles[i]) {
        if !Done(end.roles[i]) {
          var step := NeverStuck(end, i);
          assert CanStep(end, step);
        }
      }
      forall h | 0 <= h < |end.table.handles| ensures end.table.handles[h].closes == 1 {
        ClosedIffReleased(end, h);
        assert HandleOk(end, h);
      }
      forall k ensures k !in end.table.inflight {
        if k in end.table.inflight { var o := HolderOf(end, k); }
      }
      assert end.table.inflight.Keys == {};
    }
  }
}
