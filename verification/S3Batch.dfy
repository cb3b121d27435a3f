/** The batching loop of the S3 audit sink (internal/audit/s3.go).  What becomes of an upload
    is S3's business; the model ends where a body is handed over. */
module S3Batch {
  import opened Outcomes
  import opened Strings

  /** An encoded record: `text` ends in a line feed, so it is never empty. */
  datatype Encoded = Encoded(at: int, line: string)
  {
    function Text(): string { line + "\n" }
  }

  /** A record that arrives is encoded or fails to be. */
  datatype Event = Receive(at: int, line: Option<string>) | Tick

  /** `early` records the past: when a record failed to encode into an empty buffer, if that
      happened since the last upload. */
  datatype Batch = Batch(stamp: int, early: Option<int>, records: seq<Encoded>)

  datatype State = State(firstAt: Option<int>, early: Option<int>, pending: seq<Encoded>, batches: seq<Batch>)

  const START := State(None, None, [], [])

  function Bytes(records: seq<Encoded>): string {
    if records == [] then "" else Bytes(records[..|records| - 1]) + records[|records| - 1].Text()
  }

  function Flushed(s: State): State {
    if s.pending == [] then s
    else
      var stamp := if s.firstAt.Some? then s.firstAt.value else 0;
      State(None, None, [], s.batches + [Batch(stamp, s.early, s.pending)])
  }

  function Step(limit: nat, s: State, e: Event): State {
    match e
    case Tick => Flushed(s)
    case Receive(at, line) =>
      match line
      case None =>
        s.(firstAt := First(s, at), early := if s.pending == [] && s.early.None? then Some(at) else s.early)
      case Some(text) =>
        var t := Appended(s, at, text);
        if |Bytes(t.pending)| >= limit then Flushed(t) else t
  }

  function First(s: State, at: int): Option<int> { if s.firstAt.None? then Some(at) else s.firstAt }

  function Appended(s: State, at: int, line: string): State {
    s.(firstAt := First(s, at), pending := s.pending + [Encoded(at, line)])
  }

  function Run(limit: nat, events: seq<Event>): State {
    if events == [] then START
    else Step(limit, Run(limit, events[..|events| - 1]), events[|events| - 1])
  }

  // ---- the laws

  /** The records that could be encoded, in order of arrival. */
  function Arrived(events: seq<Event>): seq<Encoded> {
    if events == [] then [] else Arrived(events[..|events| - 1]) + Taken(events[|events| - 1])
  }

  function Uploaded(batches: seq<Batch>): seq<Encoded> {
    if batches == [] then [] else Uploaded(batches[..|batches| - 1]) + batches[|batches| - 1].records
  }

  /** A batch is never empty and was under the limit before its last record came; it is stamped
      with the arrival of its first record, or of a record that failed to encode before it. */
  predicate BatchOk(limit: nat, b: Batch) {
    && b.records != []
    && |Bytes(b.records[..|b.records| - 1])| < limit
    && b.stamp == if b.early.Some? then b.early.value else b.records[0].at
  }

  predicate PendingOk(limit: nat, s: State) {
    && |Bytes(s.pending)| < limit
    && (s.pending == [] ==> s.firstAt == s.early)
    && (s.pending != [] ==> s.firstAt == Some(if s.early.Some? then s.early.value else s.pending[0].at))
  }

  lemma {:induction false} BytesGrow(records: seq<Encoded>, r: Encoded)
    ensures Bytes(records + [r]) == Bytes(records) + r.Text()
    ensures |Bytes(records)| < |Bytes(records + [r])|
  {
    assert (records + [r])[..|records|] == records;
  }

  ghost predicate Ok(limit: nat, s: State) {
    PendingOk(limit, s) && forall i :: 0 <= i < |s.batches| ==> BatchOk(limit, s.batches[i])
  }

  lemma FlushOk(limit: nat, s: State)
    requires s.pending != [] && |Bytes(s.pending[..|s.pending| - 1])| < limit
    requires s.firstAt == Some(if s.early.Some? then s.early.value else s.pending[0].at)
    requires forall i :: 0 <= i < |s.batches| ==> BatchOk(limit, s.batches[i])
    ensures Ok(limit, Flushed(s))
  {
  }

  lemma StepOk(limit: nat, s: State, e: Event)
    requires limit > 0 && Ok(limit, s)
    ensures Ok(limit, Step(limit, s, e))
  {
    match e
    case Tick =>
      if s.pending != [] {
        BytesGrow(s.pending[..|s.pending| - 1], s.pending[|s.pending| - 1]);
        assert s.pending == s.pending[..|s.pending| - 1] + [s.pending[|s.pending| - 1]];
        FlushOk(limit, s);
      }
    case Receive(at, line) =>
      if line.Some? {
        var t := Appended(s, at, line.value);
        assert t.pending[..|t.pending| - 1] == s.pending;
        if |Bytes(t.pending)| >= limit { FlushOk(limit, t); }
      }
  }

  /** Between events the buffer is under the limit; every batch is well-formed. */
  lemma {:induction false} EveryBatchIsBounded(limit: nat, events: seq<Event>)
    requires limit > 0
    ensures Ok(limit, Run(limit, events))
  {
    if events != [] {
      EveryBatchIsBounded(limit, events[..|events| - 1]);
      StepOk(limit, Run(limit, events[..|events| - 1]), events[|events| - 1]);
    }
  }

  lemma FlushKeeps(s: State)
    ensures Uploaded(Flushed(s).batches) + Flushed(s).pending == Uploaded(s.batches) + s.pending
    ensures Flushed(s).pending == []
  {
    if s.pending != [] {
      assert Flushed(s).batches[..|s.batches|] == s.batches;
    }
  }

  function Taken(e: Event): seq<Encoded> {
    if e.Receive? && e.line.Some? then [Encoded(e.at, e.line.value)] else []
  }

  lemma StepKeeps(limit: nat, s: State, e: Event)
    ensures var t := Step(limit, s, e);
      Uploaded(t.batches) + t.pending == Uploaded(s.batches) + s.pending + Taken(e)
  {
    match e
    case Tick => FlushKeeps(s);
    case Receive(at, line) =>
      if line.Some? {
        FlushKeeps(Appended(s, at, line.value));
      }
  }

  /** Nothing is lost, duplicated, reordered or split: the records uploaded, batch after batch,
      and those in the buffer are the records that arrived. */
  lemma {:induction false} NothingLost(limit: nat, events: seq<Event>)
    ensures var s := Run(limit, events); Uploaded(s.batches) + s.pending == Arrived(events)
  {
    if events != [] {
      NothingLost(limit, events[..|events| - 1]);
      StepKeeps(limit, Run(limit, events[..|events| - 1]), events[|events| - 1]);
    }
  }

  /** Closing flushes: everything that arrived has been handed over. */
  lemma CloseUploadsAll(limit: nat, events: seq<Event>)
    ensures var s := Flushed(Run(limit, events)); s.pending == [] && Uploaded(s.batches) == Arrived(events)
  {
    NothingLost(limit, events);
    FlushKeeps(Run(limit, events));
  }

  function Concat(puts: seq<(int, string)>): string {
    if puts == [] then "" else Concat(puts[..|puts| - 1]) + puts[|puts| - 1].1
  }

  lemma {:induction false} BytesAppend(a: seq<Encoded>, b: seq<Encoded>)
    ensures Bytes(a + b) == Bytes(a) + Bytes(b)
    decreases |b|
  {
    if b == [] {
      assert a + b == a;
    } else {
      var front, last := b[..|b| - 1], b[|b| - 1];
      BytesAppend(a, front);
      assert a + b == (a + front) + [last] && b == front + [last];
      BytesGrow(a + front, last);
      BytesGrow(front, last);
      Regroup(Bytes(a), Bytes(front), last.Text());
    }
  }

  /** The bodies, one after the other, are the text of the records uploaded. */
  lemma {:induction false} BodiesInOrder(puts: seq<(int, string)>, batches: seq<Batch>)
    requires Bodies(puts, batches)
    ensures Concat(puts) == Bytes(Uploaded(batches))
    decreases |puts|
  {
    if puts != [] {
      BodiesInOrder(puts[..|puts| - 1], batches[..|batches| - 1]);
      BytesAppend(Uploaded(batches[..|batches| - 1]), batches[|batches| - 1].records);
    }
  }

  /** A record that fails to encode into an empty buffer leaves its arrival time behind, and a
      tick does not clear it. */
  lemma StaleStamp(limit: nat, early: int)
    ensures Run(limit, [Receive(early, None), Tick]) == State(Some(early), Some(early), [], [])
  {
    RunSnoc(limit, [], Receive(early, None));
    RunSnoc(limit, [Receive(early, None)], Tick);
    assert [] + [Receive(early, None)] == [Receive(early, None)];
    assert [Receive(early, None)] + [Tick] == [Receive(early, None), Tick];
  }

  lemma LateRecord(limit: nat, s: State, late: int, line: string)
    requires s.pending == [] && s.firstAt.Some? && |line| + 1 < limit
    ensures Step(limit, s, Receive(late, Some(line))) == s.(pending := [Encoded(late, line)])
  {
    BytesGrow([], Encoded(late, line));
    assert [] + [Encoded(late, line)] == [Encoded(late, line)];
  }

  /** The next batch carries that time, however much later it starts. */
  lemma FailureMisdatesNextBatch(limit: nat, early: int, late: int, line: string)
    requires |line| + 1 < limit
    ensures Run(limit, [Receive(early, None), Tick, Receive(late, Some(line)), Tick]).batches
         == [Batch(early, Some(early), [Encoded(late, line)])]
  {
    var failed, record := Receive(early, None), Receive(late, Some(line));
    StaleStamp(limit, early);
    LateRecord(limit, State(Some(early), Some(early), [], []), late, line);
    RunSnoc(limit, [failed, Tick], record);
    RunSnoc(limit, [failed, Tick, record], Tick);
    assert [failed, Tick] + [record] == [failed, Tick, record];
    assert [failed, Tick, record] + [Tick] == [failed, Tick, record, Tick];
  }

  lemma RunSnoc(limit: nat, events: seq<Event>, e: Event)
    ensures Run(limit, events + [e]) == Step(limit, Run(limit, events), e)
  {
    assert (events + [e])[..|events|] == events;
  }

  // ---- newline-delimited

  function Lines(records: seq<Encoded>): seq<string> {
    seq(|records|, k requires 0 <= k < |records| => records[k].line)
  }

  /** A body is its records' lines, each ended by a line feed: splitting it at line feeds gives them
      back, and nothing after the last. */
  lemma {:induction false} BodyIsLines(records: seq<Encoded>)
    requires forall k :: 0 <= k < |records| ==> '\n' !in records[k].line
    ensures Pieces(Bytes(records), '\n') == Lines(records) + [""]
    decreases |records|
  {
    if records != [] {
      var first, rest := records[0], records[1..];
      BodyIsLines(rest);
      LinesCons(first, rest);
      assert records == [first] + rest;
      FirstLine(first, rest);
      OneLine(first.line, Bytes(rest), Lines(rest));
    }
  }

  lemma LinesCons(first: Encoded, rest: seq<Encoded>)
    ensures Lines([first] + rest) == [first.line] + Lines(rest)
  {
  }

  lemma OneLine(line: string, tail: string, lines: seq<string>)
    requires '\n' !in line && Pieces(tail, '\n') == lines + [""]
    ensures Pieces(line + (['\n'] + tail), '\n') == [line] + lines + [""]
  {
    PiecesCons(line, '\n', tail);
    Regrouped([line], lines, [""]);
  }

  lemma Regrouped(a: seq<string>, b: seq<string>, c: seq<string>)
    ensures a + (b + c) == a + b + c
  {
  }

  lemma FirstLine(first: Encoded, rest: seq<Encoded>)
    ensures Bytes([first] + rest) == first.line + (['\n'] + Bytes(rest))
  {
    BytesAppend([first], rest);
    assert [first][..0] == [] && "\n" == ['\n'];
    assert Bytes([first]) == "" + first.Text();
    Regroup(first.line, "\n", Bytes(rest));
  }

  // ---- the loop

  class Sink {
    const limit: nat
    var buf: string
    var firstAt: Option<int>
    var puts: seq<(int, string)>
    ghost var model: State

    ghost predicate Valid()
      reads this
    {
      && limit > 0 && Ok(limit, model)
      && buf == Bytes(model.pending) && firstAt == model.firstAt
      && Bodies(puts, model.batches)
    }

    constructor (flushBytes: int)
      ensures Valid() && model == START
      ensures limit == if flushBytes <= 0 then 5 * 1024 * 1024 else flushBytes
    {
      limit := if flushBytes <= 0 then 5 * 1024 * 1024 else flushBytes;
      buf, firstAt, puts, model := "", None, [], START;
    }

    method Flush(now: int)
      requires buf == Bytes(model.pending) && firstAt == model.firstAt && Bodies(puts, model.batches)
      requires buf != "" ==> firstAt.Some?
      modifies this
      ensures model == Flushed(old(model)) && buf == Bytes(model.pending) && firstAt == model.firstAt
      ensures Bodies(puts, model.batches)
    {
      PendingIffBytes(model.pending);
      if |buf| == 0 { return; }
      var stamp := if firstAt.Some? then firstAt.value else now;
      puts := puts + [(stamp, buf)];
      buf, firstAt := "", None;
      model := Flushed(model);
    }

    method Append(at: int, line: string, now: int)
      requires Valid()
      modifies this
      ensures buf == Bytes(model.pending) && firstAt == model.firstAt && Bodies(puts, model.batches)
      ensures model == Step(limit, old(model), Receive(at, Some(line)))
    {
      if firstAt.None? { firstAt := Some(at); }
      BytesGrow(model.pending, Encoded(at, line));
      buf := buf + (line + "\n");
      model := Appended(model, at, line);
      if |buf| >= limit { Flush(now); }
    }

    method Handle(e: Event, now: int)
      requires Valid()
      modifies this
      ensures Valid() && model == Step(limit, old(model), e)
    {
      StepOk(limit, model, e);
      match e
      case Tick =>
        PendingIffBytes(model.pending);
        Flush(now);
      case Receive(at, Some(line)) =>
        Append(at, line, now);
      case Receive(at, None) =>
        if firstAt.None? { firstAt := Some(at); }
        model := Step(limit, model, e);
    }

    /** The whole life of the sink: the events until the channel is closed, then the deferred
        flush.  The uploaded bodies are, batch by batch, the records that arrived. */
    method Loop(events: seq<Event>, now: int)
      requires Valid() && model == START
      modifies this
      ensures Valid() && model == Flushed(Run(limit, events))
      ensures buf == "" && Uploaded(model.batches) == Arrived(events) && Concat(puts) == Bytes(Arrived(events))
    {
      var i := 0;
      while i < |events|
        invariant 0 <= i <= |events| && Valid() && model == Run(limit, events[..i])
      {
        assert events[..i + 1][..i] == events[..i];
        Handle(events[i], now);
        i := i + 1;
      }
      assert events[..|events|] == events;
      CloseUploadsAll(limit, events);
      StepOk(limit, model, Tick);
      PendingIffBytes(model.pending);
      Flush(now);
      BodiesInOrder(puts, model.batches);
    }
  }

  lemma PendingIffBytes(records: seq<Encoded>)
    ensures Bytes(records) == "" <==> records == []
  {
  }

  /** Each body is the text of its batch under its batch's stamp. */
  ghost predicate Bodies(puts: seq<(int, string)>, batches: seq<Batch>) {
    && |puts| == |batches|
    && forall i :: 0 <= i < |puts| ==> puts[i] == (batches[i].stamp, Bytes(batches[i].records))
  }
}
