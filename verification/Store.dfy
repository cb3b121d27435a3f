/** The expiring stores (internal/store): an in-memory map and a Bolt bucket walked in
    key order.  Both hold entries past their time until something removes them; the
    point of this module is that nobody can tell. */
module Store {
  import opened KeyOrder
  import opened Outcomes

  /** `createdAt` is zero when unset; `ttl` zero means the entry never expires. */
  datatype Entry = Entry(
    tool: string, hash: string, request: string, response: string,
    status: int, createdAt: int, replays: nat, ttl: int, embedding: seq<real>)
  {
    predicate Expired(now: int) { ttl != 0 && now - createdAt > ttl }
  }

  datatype Error = NotFound | Cancelled | MissingKey
  datatype Result<+T> = Ok(value: T) | Err(error: Error)

  type Table = map<string, Entry>

  function Prefix(tool: string): string { tool + ['\0'] }
  function Key(tool: string, hash: string): string { Prefix(tool) + hash }

  /** What time has left of a table. */
  function Live(tab: Table, now: int): Table {
    map k | k in tab && !tab[k].Expired(now) :: tab[k]
  }

  // ---- what the operations do to a table

  function Lookup(tab: Table, now: int, k: string): Option<Entry> {
    if k in tab && !tab[k].Expired(now) then Some(tab[k]) else None
  }

  function AfterGet(tab: Table, now: int, k: string): Table {
    if k in tab && tab[k].Expired(now) then tab - {k} else tab
  }

  predicate Storable(e: Entry) { e.tool != "" && e.hash != "" }

  function Stamped(e: Entry, now: int): Entry {
    if e.createdAt == 0 then e.(createdAt := now) else e
  }

  function AfterPut(tab: Table, now: int, e: Entry): Table {
    if Storable(e) then tab[Key(e.tool, e.hash) := Stamped(e, now)] else tab
  }

  function AfterIncrement(tab: Table, k: string): Table {
    if k in tab then tab[k := tab[k].(replays := tab[k].replays + 1)] else tab
  }

  function Scanned(tab: Table, now: int, tool: string): Table {
    map k | k in tab && HasPrefix(k, Prefix(tool)) && !tab[k].Expired(now) :: tab[k]
  }

  // ---- every run looks like a run of a map that never forgets

  datatype Op =
    | Get(tool: string, hash: string)
    | Put(entry: Entry)
    | Delete(tool: string, hash: string)
    | Scan(tool: string)
    | Increment(tool: string, hash: string)
    | Compact

  datatype Answer = Fetched(entry: Option<Entry>) | Visited(entries: Table) | Silent

  /** The reference keeps everything and judges by the clock alone; the memory store drops an
      expired entry when it is asked for; the Bolt store also when it is compacted. */
  datatype Backend = Reference | MemoryBackend | BoltBackend

  function Step(b: Backend, tab: Table, now: int, op: Op): (Table, Answer) {
    match op
    case Get(tool, hash) =>
      (if b == Reference then tab else AfterGet(tab, now, Key(tool, hash)), Fetched(Lookup(tab, now, Key(tool, hash))))
    case Put(e) => (AfterPut(tab, now, e), Silent)
    case Delete(tool, hash) => (tab - {Key(tool, hash)}, Silent)
    case Scan(tool) => (tab, Visited(Scanned(tab, now, tool)))
    case Increment(tool, hash) => (AfterIncrement(tab, Key(tool, hash)), Silent)
    case Compact => (if b == BoltBackend then Live(tab, now) else tab, Silent)
  }

  datatype Timed = At(now: int, op: Op)

  function Run(b: Backend, tab: Table, ops: seq<Timed>): seq<Answer>
    decreases |ops|
  {
    if ops == [] then []
    else
      var (next, answer) := Step(b, tab, ops[0].now, ops[0].op);
      [answer] + Run(b, next, ops[1..])
  }

  predicate Monotone(now: int, ops: seq<Timed>)
    decreases |ops|
  {
    ops == [] || (now <= ops[0].now && Monotone(ops[0].now, ops[1..]))
  }

  /** Indistinguishable from now on: the same entries are still alive. */
  predicate Same(a: Table, b: Table, now: int) {
    Live(a, now) == Live(b, now)
  }

  lemma LiveLookup(a: Table, b: Table, now: int, k: string)
    requires Same(a, b, now)
    ensures Lookup(a, now, k) == Lookup(b, now, k)
  {
    assert Lookup(a, now, k) == if k in Live(a, now) then Some(Live(a, now)[k]) else None;
    assert Lookup(b, now, k) == if k in Live(b, now) then Some(Live(b, now)[k]) else None;
  }

  lemma SameLookups(a: Table, b: Table, now: int)
    requires forall k :: Lookup(a, now, k) == Lookup(b, now, k)
    ensures Same(a, b, now)
  {
    forall k ensures (k in Live(a, now) <==> k in Live(b, now))
                     && (k in Live(a, now) && k in Live(b, now) ==> Live(a, now)[k] == Live(b, now)[k])
    {
      assert Lookup(a, now, k) == Lookup(b, now, k);
    }
    assert Live(a, now).Keys == Live(b, now).Keys;
  }

  /** Time only takes away, and takes the same from both. */
  lemma SameLater(a: Table, b: Table, now: int, later: int)
    requires Same(a, b, now) && now <= later
    ensures Same(a, b, later)
  {
    forall k ensures Lookup(a, later, k) == Lookup(b, later, k) {
      LiveLookup(a, b, now, k);
    }
    SameLookups(a, b, later);
  }

  lemma SameStep(x: Backend, y: Backend, a: Table, b: Table, now: int, op: Op)
    requires Same(a, b, now)
    ensures Same(Step(x, a, now, op).0, Step(y, b, now, op).0, now)
    ensures Step(x, a, now, op).1 == Step(y, b, now, op).1
  {
    var a', b' := Step(x, a, now, op).0, Step(y, b, now, op).0;
    forall k ensures Lookup(a', now, k) == Lookup(b', now, k) {
      LiveLookup(a, b, now, k);
    }
    SameLookups(a', b', now);
    match op
    case Get(tool, hash) => LiveLookup(a, b, now, Key(tool, hash));
    case Scan(tool) => SameScan(a, b, now, tool);
    case _ =>
  }

  lemma SameScan(a: Table, b: Table, now: int, tool: string)
    requires Same(a, b, now)
    ensures Scanned(a, now, tool) == Scanned(b, now, tool)
  {
    var x, y := Scanned(a, now, tool), Scanned(b, now, tool);
    forall k ensures (k in x <==> k in y) && (k in x && k in y ==> x[k] == y[k]) {
      LiveLookup(a, b, now, k);
    }
    assert x.Keys == y.Keys;
  }

  /** Over every sequence of operations with a clock that does not run backwards, stores that
      start indistinguishable answer every Get and every Scan alike, whichever backends they
      are and however differently they have collected garbage. */
  lemma {:induction false} RunsAgree(x: Backend, y: Backend, a: Table, b: Table, now: int, ops: seq<Timed>)
    requires Same(a, b, now) && Monotone(now, ops)
    ensures Run(x, a, ops) == Run(y, b, ops)
    decreases |ops|
  {
    if ops != [] {
      SameLater(a, b, now, ops[0].now);
      SameStep(x, y, a, b, ops[0].now, ops[0].op);
      RunsAgree(x, y, Step(x, a, ops[0].now, ops[0].op).0, Step(y, b, ops[0].now, ops[0].op).0, ops[0].now, ops[1..]);
    }
  }

  /** Compacting, or dropping one expired entry, at any moment changes no later answer. */
  lemma GarbageIsInvisible(b: Backend, tab: Table, now: int, k: string, ops: seq<Timed>)
    requires Monotone(now, ops)
    ensures Run(b, Live(tab, now), ops) == Run(b, tab, ops)
    ensures Run(b, AfterGet(tab, now, k), ops) == Run(b, tab, ops)
  {
    forall q ensures Lookup(Live(tab, now), now, q) == Lookup(tab, now, q) == Lookup(AfterGet(tab, now, k), now, q) {
    }
    SameLookups(Live(tab, now), tab, now);
    SameLookups(AfterGet(tab, now, k), tab, now);
    RunsAgree(b, b, Live(tab, now), tab, now, ops);
    RunsAgree(b, b, AfterGet(tab, now, k), tab, now, ops);
  }

  predicate Dead(tab: Table, now: int, k: string) {
    k in tab && tab[k].Expired(now)
  }

  /** The verdicts of Delete and IncrementReplay are where garbage shows.  Both succeed exactly
      when the key is present at all, so stores that agree on every live entry agree on them
      exactly when both or neither still hold a dead entry there; in particular compaction
      changes them exactly for dead entries. */
  lemma PresenceVerdictIff(a: Table, b: Table, now: int, op: Op)
    requires Same(a, b, now) && (op.Delete? || op.Increment?)
    ensures (Accepted(a, op) <==> Accepted(b, op))
            <==> (Dead(a, now, Key(op.tool, op.hash)) <==> Dead(b, now, Key(op.tool, op.hash)))
    ensures (Accepted(a, op) <==> Accepted(Live(a, now), op)) <==> !Dead(a, now, Key(op.tool, op.hash))
  {
    LiveLookup(a, b, now, Key(op.tool, op.hash));
  }

  /** Whether the operation reports success rather than a missing key. */
  predicate Accepted(tab: Table, op: Op) {
    op.Delete? || op.Increment? ==> Key(op.tool, op.hash) in tab
  }

  // ---- keys

  predicate NulFree(s: string) { '\0' !in s }

  lemma PrefixDeterminesTool(tool: string, hash: string, other: string)
    requires NulFree(tool) && NulFree(other) && HasPrefix(Key(tool, hash), Prefix(other))
    ensures tool == other
  {
    var k := Key(tool, hash);
    assert forall i :: 0 <= i < |tool| ==> k[i] == tool[i];
    assert forall i :: 0 <= i < |other| ==> k[i] == Prefix(other)[i] == other[i];
    assert k[|tool|] == '\0' && k[|other|] == Prefix(other)[|other|] == '\0';
    assert |tool| == |other|;
  }

  /** A tool's prefix selects that tool and no other. */
  lemma PrefixSelectsTool(tool: string, hash: string, other: string)
    requires NulFree(tool) && NulFree(other)
    ensures HasPrefix(Key(tool, hash), Prefix(other)) <==> tool == other
  {
    if HasPrefix(Key(tool, hash), Prefix(other)) {
      PrefixDeterminesTool(tool, hash, other);
    }
    assert Key(tool, hash)[..|Prefix(tool)|] == Prefix(tool);
  }

  lemma KeyInjective(tool: string, hash: string, tool': string, hash': string)
    requires NulFree(tool) && NulFree(tool')
    ensures Key(tool, hash) == Key(tool', hash') <==> tool == tool' && hash == hash'
  {
    if Key(tool, hash) == Key(tool', hash') {
      PrefixSelectsTool(tool', hash', tool');
      PrefixSelectsTool(tool, hash, tool');
      assert Key(tool, hash)[|Prefix(tool)|..] == hash;
      assert Key(tool', hash')[|Prefix(tool')|..] == hash';
    }
  }

  /** Fingerprints are hex, hence NUL-free, and then a tool's prefix selects its own keys and
      those of the tools that continue its name with a NUL, and no others. */
  lemma PrefixSelectsExactly(tool: string, hash: string, other: string)
    requires NulFree(hash)
    ensures HasPrefix(Key(tool, hash), Prefix(other)) <==> tool == other || HasPrefix(tool, Prefix(other))
  {
    var k, n := Key(tool, hash), |other|;
    assert forall i :: 0 <= i < |tool| ==> k[i] == tool[i];
    LastNul(tool, hash);
    if HasPrefix(k, Prefix(other)) {
      assert forall i :: 0 <= i < n ==> k[i] == Prefix(other)[i] == other[i];
      assert k[n] == Prefix(other)[n] == '\0';
      assert n <= |tool|;
      if n == |tool| {
        assert tool == other;
      } else {
        assert tool[..n + 1] == Prefix(other);
      }
    }
    if HasPrefix(tool, Prefix(other)) {
      assert k[..n + 1] == tool[..n + 1];
    }
    assert k[..|Prefix(tool)|] == Prefix(tool);
  }

  /** With NUL-free fingerprints the joined key is injective for all tools. */
  lemma KeyInjectiveByHash(tool: string, hash: string, tool': string, hash': string)
    requires NulFree(hash) && NulFree(hash')
    ensures Key(tool, hash) == Key(tool', hash') <==> tool == tool' && hash == hash'
  {
    if Key(tool, hash) == Key(tool', hash') {
      LastNul(tool, hash);
      LastNul(tool', hash');
      assert Key(tool, hash)[..|tool|] == tool && Key(tool', hash')[..|tool'|] == tool';
      assert Key(tool, hash)[|tool| + 1..] == hash && Key(tool', hash')[|tool'| + 1..] == hash';
    }
  }

  lemma LastNul(tool: string, hash: string)
    requires NulFree(hash)
    ensures Key(tool, hash)[|tool|] == '\0' && forall i :: |tool| < i < |Key(tool, hash)| ==> Key(tool, hash)[i] != '\0'
  {
    assert forall i :: |tool| < i < |Key(tool, hash)| ==> Key(tool, hash)[i] == hash[i - |tool| - 1];
  }

  predicate WellKeyed(tab: Table) {
    forall k :: k in tab ==> k == Key(tab[k].tool, tab[k].hash) && NulFree(tab[k].tool)
  }

  /** Puts of NUL-free tools keep every entry under its own key, and then a scan sees exactly
      the live entries of its tool. */
  lemma ScanIsByTool(tab: Table, now: int, tool: string)
    requires WellKeyed(tab) && NulFree(tool)
    ensures Scanned(tab, now, tool) == ByTool(tab, now, tool)
  {
    forall k | k in tab ensures HasPrefix(k, Prefix(tool)) <==> tab[k].tool == tool {
      PrefixSelectsTool(tab[k].tool, tab[k].hash, tool);
    }
  }

  lemma StepKeepsKeys(b: Backend, tab: Table, now: int, op: Op)
    requires WellKeyed(tab) && (op.Put? ==> NulFree(op.entry.tool))
    ensures WellKeyed(Step(b, tab, now, op).0)
  {
  }

  /** The table a run leaves behind. */
  function After(b: Backend, tab: Table, ops: seq<Timed>): Table
    decreases |ops|
  {
    if ops == [] then tab else After(b, Step(b, tab, ops[0].now, ops[0].op).0, ops[1..])
  }

  predicate PutsNulFree(ops: seq<Timed>) {
    forall i :: 0 <= i < |ops| && ops[i].op.Put? ==> NulFree(ops[i].op.entry.tool)
  }

  function ByTool(tab: Table, now: int, tool: string): Table {
    map k | k in tab && tab[k].tool == tool && !tab[k].Expired(now) :: tab[k]
  }

  /** In every run that puts only NUL-free tools, every scan, at whatever point, visits exactly
      the live entries of its tool. */
  lemma {:induction false} RunsScanByTool(b: Backend, tab: Table, ops: seq<Timed>, k: nat)
    requires WellKeyed(tab) && PutsNulFree(ops) && k < |ops| && ops[k].op.Scan? && NulFree(ops[k].op.tool)
    ensures |Run(b, tab, ops)| == |ops|
    ensures Run(b, tab, ops)[k] == Visited(ByTool(After(b, tab, ops[..k]), ops[k].now, ops[k].op.tool))
    decreases |ops|
  {
    var next := Step(b, tab, ops[0].now, ops[0].op).0;
    RunLength(b, next, ops[1..]);
    if k == 0 {
      ScanIsByTool(tab, ops[0].now, ops[0].op.tool);
    } else {
      StepKeepsKeys(b, tab, ops[0].now, ops[0].op);
      RunsScanByTool(b, next, ops[1..], k - 1);
      assert ops[..k][1..] == ops[1..][..k - 1];
    }
  }

  lemma {:induction false} RunLength(b: Backend, tab: Table, ops: seq<Timed>)
    ensures |Run(b, tab, ops)| == |ops|
    decreases |ops|
  {
    if ops != [] { RunLength(b, Step(b, tab, ops[0].now, ops[0].op).0, ops[1..]); }
  }

  // ---- the replay counter

  /** How often the key is counted in a sequence of operations. */
  function Counted(ops: seq<Timed>, k: string): nat {
    if ops == [] then 0
    else (if ops[0].op.Increment? && Key(ops[0].op.tool, ops[0].op.hash) == k then 1 else 0) + Counted(ops[1..], k)
  }

  predicate Untouched(ops: seq<Timed>, k: string) {
    forall i :: 0 <= i < |ops| ==>
      && (ops[i].op.Put? ==> Key(ops[i].op.entry.tool, ops[i].op.entry.hash) != k)
      && (ops[i].op.Delete? ==> Key(ops[i].op.tool, ops[i].op.hash) != k)
  }

  predicate LivesThrough(e: Entry, ops: seq<Timed>) {
    forall i :: 0 <= i < |ops| ==> !e.Expired(ops[i].now)
  }

  /** While an entry lives and nobody overwrites or deletes it, its counter grows by one with every
      count of its key, whatever other operations come in between, and nothing else of it changes. */
  lemma {:induction false} CounterCounts(b: Backend, tab: Table, ops: seq<Timed>, k: string)
    requires k in tab && Untouched(ops, k) && LivesThrough(tab[k], ops)
    ensures var end := After(b, tab, ops);
      k in end && end[k] == tab[k].(replays := tab[k].replays + Counted(ops, k))
    decreases |ops|
  {
    if ops != [] {
      var next := Step(b, tab, ops[0].now, ops[0].op).0;
      StepCounts(b, tab, ops[0].now, ops[0].op, k);
      CounterCounts(b, next, ops[1..], k);
    }
  }

  lemma StepCounts(b: Backend, tab: Table, now: int, op: Op, k: string)
    requires k in tab && !tab[k].Expired(now)
    requires (op.Put? ==> Key(op.entry.tool, op.entry.hash) != k) && (op.Delete? ==> Key(op.tool, op.hash) != k)
    ensures var next := Step(b, tab, now, op).0;
      k in next && next[k] == tab[k].(replays := tab[k].replays + if op.Increment? && Key(op.tool, op.hash) == k then 1 else 0)
  {
  }

  /** A stored entry is found under its tool and fingerprint until its time to live is over, counted
      from its own creation time or, if it has none, from the Put; without a time to live for ever. */
  lemma PutIsFound(tab: Table, now: int, e: Entry, later: int)
    requires e.tool != "" && e.hash != ""
    ensures var since := if e.createdAt == 0 then now else e.createdAt;
      Lookup(AfterPut(tab, now, e), later, Key(e.tool, e.hash))
      == if e.ttl == 0 || later - since <= e.ttl then Some(e.(createdAt := since)) else None
    ensures forall k :: k != Key(e.tool, e.hash) ==> Lookup(AfterPut(tab, now, e), later, k) == Lookup(tab, later, k)
  {
  }

  // ---- scanning

  predicate Matches(tab: Table, now: int, tool: string, k: string) {
    k in tab && HasPrefix(k, Prefix(tool)) && !tab[k].Expired(now)
  }

  /** A complete or early-stopped enumeration of the entries a scan may visit: each once, all
      of them if the visitor never declines, and nothing after it declines. */
  ghost predicate IsScan(visited: seq<string>, tab: Table, now: int, tool: string, visit: Entry -> bool) {
    && (forall i, j :: 0 <= i < j < |visited| ==> visited[i] != visited[j])
    && (forall i :: 0 <= i < |visited| ==> Matches(tab, now, tool, visited[i]))
    && (forall i :: 0 <= i < |visited| - 1 ==> visit(tab[visited[i]]))
    && ((visited != [] && !visit(tab[visited[|visited| - 1]]))
        || forall k :: Matches(tab, now, tool, k) ==> k in visited)
  }

  /** Two scans of one table with a visitor that never declines visit the same entries,
      whatever their orders. */
  lemma ScansVisitTheSame(xs: seq<string>, ys: seq<string>, tab: Table, now: int, tool: string, visit: Entry -> bool)
    requires forall e :: visit(e)
    requires IsScan(xs, tab, now, tool, visit) && IsScan(ys, tab, now, tool, visit)
    ensures (set k | k in xs) == (set k | k in ys) == Scanned(tab, now, tool).Keys
  {
  }

  class Memory {
    var entries: Table

    constructor ()
      ensures entries == map[]
    {
      entries := map[];
    }

    method Get(cancelled: bool, now: int, tool: string, hash: string) returns (r: Result<Entry>)
      modifies this
      ensures cancelled ==> r == Err(Cancelled) && entries == old(entries)
      ensures !cancelled ==>
        && entries == AfterGet(old(entries), now, Key(tool, hash))
        && r == match Lookup(old(entries), now, Key(tool, hash)) case Some(e) => Ok(e) case None => Err(NotFound)
    {
      if cancelled { return Err(Cancelled); }
      var k := Key(tool, hash);
      if k !in entries { return Err(NotFound); }
      var e := entries[k];
      if e.Expired(now) {
        entries := entries - {k};
        return Err(NotFound);
      }
      return Ok(e);
    }

    method Put(cancelled: bool, now: int, e: Entry) returns (r: Result<()>)
      modifies this
      ensures r.Ok? <==> !cancelled && Storable(e)
      ensures entries == if r.Ok? then AfterPut(old(entries), now, e) else old(entries)
    {
      if cancelled { return Err(Cancelled); }
      if e.tool == "" || e.hash == "" { return Err(MissingKey); }
      var stamped := e;
      if e.createdAt == 0 { stamped := e.(createdAt := now); }
      entries := entries[Key(e.tool, e.hash) := stamped];
      return Ok(());
    }

    method Delete(cancelled: bool, tool: string, hash: string) returns (r: Result<()>)
      modifies this
      ensures r.Ok? <==> !cancelled && Accepted(old(entries), Op.Delete(tool, hash))
      ensures entries == if r.Ok? then old(entries) - {Key(tool, hash)} else old(entries)
    {
      if cancelled { return Err(Cancelled); }
      if Key(tool, hash) !in entries { return Err(NotFound); }
      entries := entries - {Key(tool, hash)};
      return Ok(());
    }

    method IncrementReplay(cancelled: bool, tool: string, hash: string) returns (r: Result<()>)
      modifies this
      ensures r.Ok? <==> !cancelled && Accepted(old(entries), Op.Increment(tool, hash))
      ensures entries == if r.Ok? then AfterIncrement(old(entries), Key(tool, hash)) else old(entries)
    {
      if cancelled { return Err(Cancelled); }
      var k := Key(tool, hash);
      if k !in entries { return Err(NotFound); }
      entries := entries[k := entries[k].(replays := entries[k].replays + 1)];
      return Ok(());
    }

    /** Map iteration in any order, filtering on the prefix. */
    method Scan(now: int, tool: string, visit: Entry -> bool) returns (visited: seq<string>)
      ensures IsScan(visited, entries, now, tool, visit)
    {
      visited := [];
      var left := entries.Keys;
      while left != {}
        invariant left <= entries.Keys
        invariant forall i :: 0 <= i < |visited| ==> Matches(entries, now, tool, visited[i]) && visited[i] !in left
        invariant forall i, j :: 0 <= i < j < |visited| ==> visited[i] != visited[j]
        invariant forall i :: 0 <= i < |visited| ==> visit(entries[visited[i]])
        invariant forall k :: Matches(entries, now, tool, k) && k !in left ==> k in visited
        decreases |left|
      {
        var k :| k in left;
        left := left - {k};
        if HasPrefix(k, Prefix(tool)) && !entries[k].Expired(now) {
          visited := visited + [k];
          if !visit(entries[k]) { return; }
        }
      }
    }
  }

  class Bolt {
    var bucket: Table

    constructor ()
      ensures bucket == map[]
    {
      bucket := map[];
    }

    /** Read transaction, then a write transaction that drops an expired entry. */
    method Get(cancelled: bool, now: int, tool: string, hash: string) returns (r: Result<Entry>)
      modifies this
      ensures cancelled ==> r == Err(Cancelled) && bucket == old(bucket)
      ensures !cancelled ==>
        && bucket == AfterGet(old(bucket), now, Key(tool, hash))
        && r == match Lookup(old(bucket), now, Key(tool, hash)) case Some(e) => Ok(e) case None => Err(NotFound)
    {
      if cancelled { return Err(Cancelled); }
      var found: Option<Entry> := None;
      if Key(tool, hash) in bucket { found := Some(bucket[Key(tool, hash)]); }
      match found
      case None => return Err(NotFound);
      case Some(e) =>
        if e.Expired(now) {
          bucket := bucket - {Key(tool, hash)};
          return Err(NotFound);
        }
        return Ok(e);
    }

    /** The read pass collects the expired keys, the write pass deletes them. */
    method Compact(now: int) returns (removed: nat)
      modifies this
      ensures bucket == Live(old(bucket), now)
      ensures removed == |old(bucket)| - |bucket|
    {
      var expired := ExpiredKeys(now);
      var j := 0;
      while j < |expired|
        invariant 0 <= j <= |expired|
        invariant forall k :: k in bucket <==> k in old(bucket) && k !in expired[..j]
        invariant forall k :: k in bucket ==> bucket[k] == old(bucket)[k]
        invariant |bucket| == |old(bucket)| - j
      {
        NotEarlier(expired, j);
        assert Dead(old(bucket), now, expired[j]);
        RemoveKey(bucket, expired[j]);
        bucket := bucket - {expired[j]};
        j := j + 1;
      }
      assert expired[..|expired|] == expired;
      removed := |expired|;
    }

    method ExpiredKeys(now: int) returns (expired: seq<string>)
      ensures forall k :: k in expired <==> Dead(bucket, now, k)
      ensures forall x, y :: 0 <= x < y < |expired| ==> expired[x] != expired[y]
    {
      var all := CursorKeys();
      expired := [];
      var i := 0;
      while i < |all|
        invariant 0 <= i <= |all|
        invariant forall k :: k in expired <==> k in all[..i] && Dead(bucket, now, k)
        invariant forall x, y :: 0 <= x < y < |expired| ==> expired[x] != expired[y]
      {
        if bucket[all[i]].Expired(now) {
          NotBefore(all, i);
          expired := expired + [all[i]];
        }
        i := i + 1;
      }
      assert all[..|all|] == all;
    }

    /** The keys in the order a cursor walks them. */
    method CursorKeys() returns (ks: seq<string>)
      ensures Increasing(ks) && forall k :: k in ks <==> k in bucket
    {
      var keys: seq<string> := [];
      var left := bucket.Keys;
      while left != {}
        invariant left <= bucket.Keys
        invariant forall i, j :: 0 <= i < j < |keys| ==> keys[i] != keys[j]
        invariant forall k :: k in keys <==> k in bucket.Keys && k !in left
        decreases |left|
      {
        var k :| k in left;
        keys := keys + [k];
        left := left - {k};
      }
      ks := SortStrings(keys);
      assert (set k | k in keys) == bucket.Keys;
    }

    /** `Cursor.Seek`: the first key not below the target. */
    method Seek(ks: seq<string>, target: string) returns (p: nat)
      requires Increasing(ks)
      ensures p <= |ks|
      ensures forall i :: 0 <= i < p ==> !Le(target, ks[i])
      ensures forall i :: p <= i < |ks| ==> Le(target, ks[i])
    {
      p := 0;
      while p < |ks| && !Le(target, ks[p])
        invariant 0 <= p <= |ks|
        invariant forall i :: 0 <= i < p ==> !Le(target, ks[i])
      {
        p := p + 1;
      }
      if p < |ks| {
        forall i | p < i < |ks| ensures Le(target, ks[i]) {
          LeTransitive(target, ks[p], ks[i]);
        }
      }
    }

    /** Seek to the tool's prefix and walk while keys carry it. */
    method Scan(now: int, tool: string, visit: Entry -> bool) returns (visited: seq<string>)
      ensures IsScan(visited, bucket, now, tool, visit) && Increasing(visited)
    {
      var ks := CursorKeys();
      var start := Seek(ks, Prefix(tool));
      var p := start;
      visited := [];
      while p < |ks| && HasPrefix(ks[p], Prefix(tool))
        invariant start <= p <= |ks|
        invariant Walked(visited, ks, start, p, bucket, now, tool)
        invariant forall i :: 0 <= i < |visited| ==> visit(bucket[visited[i]])
      {
        WalkOn(visited, ks, start, p, bucket, now, tool);
        var k := ks[p];
        if !bucket[k].Expired(now) {
          visited := visited + [k];
          if !visit(bucket[k]) {
            StoppedScan(visited, ks, start, p + 1, bucket, now, tool, visit);
            return;
          }
        }
        p := p + 1;
      }
      FinishedScan(visited, ks, start, p, bucket, now, tool, visit);
    }
  }

  lemma RemoveKey(tab: Table, k: string)
    requires k in tab
    ensures |tab - {k}| == |tab| - 1
  {
    assert (tab - {k}).Keys == tab.Keys - {k};
  }

  lemma NotBefore(ks: seq<string>, i: nat)
    requires Increasing(ks) && i < |ks|
    ensures ks[i] !in ks[..i]
  {
  }

  lemma NotEarlier(ks: seq<string>, j: nat)
    requires forall x, y :: 0 <= x < y < |ks| ==> ks[x] != ks[y]
    requires j < |ks|
    ensures ks[j] !in ks[..j] && ks[..j + 1] == ks[..j] + [ks[j]]
  {
  }

  lemma DistinctWhenIncreasing(ks: seq<string>)
    requires Increasing(ks)
    ensures forall i, j :: 0 <= i < j < |ks| ==> ks[i] != ks[j]
  {
  }

  /** `visited` holds, in order, the live ones among the keys walked so far. */
  ghost predicate Walked(visited: seq<string>, ks: seq<string>, start: nat, p: nat, tab: Table, now: int, tool: string) {
    && start <= p <= |ks|
    && Increasing(visited)
    && (forall x :: 0 <= x < |visited| ==> Matches(tab, now, tool, visited[x]))
    && (forall x, q :: 0 <= x < |visited| && p <= q < |ks| ==> Lt(visited[x], ks[q]))
    && (forall i :: start <= i < p && Matches(tab, now, tool, ks[i]) ==> ks[i] in visited)
  }

  lemma WalkOn(visited: seq<string>, ks: seq<string>, start: nat, p: nat, tab: Table, now: int, tool: string)
    requires Increasing(ks) && p < |ks| && ks[p] in tab && HasPrefix(ks[p], Prefix(tool))
    requires Walked(visited, ks, start, p, tab, now, tool)
    ensures Walked(if tab[ks[p]].Expired(now) then visited else visited + [ks[p]], ks, start, p + 1, tab, now, tool)
  {
  }

  /** The visitor declined the last entry. */
  lemma StoppedScan(visited: seq<string>, ks: seq<string>, start: nat, p: nat, tab: Table, now: int, tool: string, visit: Entry -> bool)
    requires Walked(visited, ks, start, p, tab, now, tool) && visited != []
    requires forall i :: 0 <= i < |visited| - 1 ==> visited[i] in tab && visit(tab[visited[i]])
    requires visited[|visited| - 1] in tab && !visit(tab[visited[|visited| - 1]])
    ensures IsScan(visited, tab, now, tool, visit) && Increasing(visited)
  {
    DistinctWhenIncreasing(visited);
  }

  /** The walk came to the end of the run. */
  lemma FinishedScan(visited: seq<string>, ks: seq<string>, start: nat, p: nat, tab: Table, now: int, tool: string, visit: Entry -> bool)
    requires Increasing(ks) && (forall k :: k in ks <==> k in tab) && Walked(visited, ks, start, p, tab, now, tool)
    requires forall i :: 0 <= i < start ==> !Le(Prefix(tool), ks[i])
    requires forall i :: start <= i < |ks| ==> Le(Prefix(tool), ks[i])
    requires p < |ks| ==> !HasPrefix(ks[p], Prefix(tool))
    requires forall i :: 0 <= i < |visited| ==> visited[i] in tab && visit(tab[visited[i]])
    ensures IsScan(visited, tab, now, tool, visit) && Increasing(visited)
  {
    DistinctWhenIncreasing(visited);
    WalkedAll(visited, ks, start, p, tab, now, tool);
  }

  /** The walk misses nothing: below the seek position and past the end of the run no key
      carries the prefix. */
  lemma WalkedAll(visited: seq<string>, ks: seq<string>, start: nat, p: nat, tab: Table, now: int, tool: string)
    requires Increasing(ks) && (forall k :: k in ks <==> k in tab)
    requires Walked(visited, ks, start, p, tab, now, tool)
    requires forall i :: 0 <= i < start ==> !Le(Prefix(tool), ks[i])
    requires forall i :: start <= i < |ks| ==> Le(Prefix(tool), ks[i])
    requires p < |ks| ==> !HasPrefix(ks[p], Prefix(tool))
    ensures forall k :: Matches(tab, now, tool, k) ==> k in visited
  {
    forall k | Matches(tab, now, tool, k) ensures k in visited {
      var i :| 0 <= i < |ks| && ks[i] == k;
      PrefixSortsFirst(Prefix(tool), k);
      assert start <= i;
      if p < i {
        PrefixContiguous(Prefix(tool), ks[p], k);
      }
      assert i < p;
    }
  }
}
