/** The offline harness (internal/eval).  Scoring a pair normalises the argument maps
    of its two records in place, and every record occurs in many pairs, so all but the
    first score of a record see arguments that earlier scores have rewritten. */
module Eval {
  import opened Canonical
  import opened Normalizer
  import opened Policy
  import opened Fingerprint

  datatype Record = Record(tool: string, intentId: string)

  datatype Score = Score(hashA: string, hashB: string, exactMatch: bool, similarity: real)

  /** What the runner is configured with; `similarity` stands for building the two intent
      strings from the selected fields, embedding them and taking the cosine. */
  datatype Runner = Runner(t: Tables, cfg: Config, sha: string -> string, similarity: (Args, Args) -> real)

  ghost function FreshHash(r: Runner, tool: string, raw: Args): string {
    r.sha(Preimage(r.t, raw, r.cfg.For(tool)))
  }

  /** The score of two argument maps nobody has touched yet. */
  ghost function FreshScore(r: Runner, tool: string, a: Args, b: Args): Score {
    var pol := r.cfg.For(tool);
    var ha, hb := FreshHash(r, tool, a), FreshHash(r, tool, b);
    Score(ha, hb, ha == hb, r.similarity(Essence(r.t, a, pol), Essence(r.t, b, pol)))
  }

  predicate SameTool(records: seq<Record>, p: (nat, nat)) {
    p.0 < p.1 < |records| && records[p.0].tool == records[p.1].tool
  }

  /** Normalising `raw` any number of times before scoring it is invisible. */
  lemma AlreadyNormalized(r: Runner, tool: string, raw: Args)
    requires KeepsSpaces(r.t) && LawfulArgs(r.t, raw, r.cfg.For(tool).normalize)
    ensures var pol := r.cfg.For(tool);
            var seen := Normalized(r.t, raw, pol.normalize);
            && Normalized(r.t, seen, pol.normalize) == seen
            && Essence(r.t, seen, pol) == Essence(r.t, raw, pol)
            && FreshHash(r, tool, seen) == FreshHash(r, tool, raw)
  {
    NormalizedTwice(r.t, raw, r.cfg.For(tool).normalize);
  }

  predicate Seen(r: Runner, tool: string, was: Args, now: Args) {
    now == was || now == Normalized(r.t, was, r.cfg.For(tool).normalize)
  }

  lemma ScoreOfSeen(r: Runner, tool: string, a: Args, b: Args, nowA: Args, nowB: Args)
    requires KeepsSpaces(r.t)
    requires LawfulArgs(r.t, a, r.cfg.For(tool).normalize) && LawfulArgs(r.t, b, r.cfg.For(tool).normalize)
    requires Seen(r, tool, a, nowA) && Seen(r, tool, b, nowB)
    ensures FreshScore(r, tool, nowA, nowB) == FreshScore(r, tool, a, b)
    ensures Seen(r, tool, a, Normalized(r.t, nowA, r.cfg.For(tool).normalize))
    ensures Seen(r, tool, b, Normalized(r.t, nowB, r.cfg.For(tool).normalize))
  {
    AlreadyNormalized(r, tool, a);
    AlreadyNormalized(r, tool, b);
  }

  /** The loaded data set.  A pair carries copies of two records, but a record only refers to
      its argument map, so all pairs share the maps kept here. */
  class Dataset {
    const records: seq<Record>
    var args: seq<Args>

    ghost predicate Valid()
      reads this
    {
      |args| == |records|
    }

    constructor (records: seq<Record>, args: seq<Args>)
      requires |args| == |records|
      ensures Valid() && this.records == records && this.args == args
    {
      this.records, this.args := records, args;
    }

    /** `analyse`: the caller's map is overwritten with its normalised form. */
    method Analyse(r: Runner, i: nat, pol: ToolPolicy) returns (hash: string, selected: Args)
      requires Valid() && i < |records| && r.t.space(' ')
      modifies this
      ensures Valid() && args == old(args)[i := Normalized(r.t, old(args)[i], pol.normalize)]
      ensures selected == Essence(r.t, old(args)[i], pol)
      ensures hash == r.sha(Preimage(r.t, old(args)[i], pol))
    {
      var raw := NormalizeFields(r.t, args[i], pol.normalize);
      args := args[i := raw];
      selected := SelectFields(raw, pol.fingerprintFields);
      var canon := Canonicalize(Object(selected));
      hash := r.sha(canon);
    }

    /** `Score`. */
    method ScorePair(r: Runner, i: nat, j: nat) returns (s: Score)
      requires Valid() && i < j < |records| && r.t.space(' ')
      modifies this
      ensures Valid()
      ensures var norm := r.cfg.For(records[i].tool).normalize;
              args == old(args)[i := Normalized(r.t, old(args)[i], norm)][j := Normalized(r.t, old(args)[j], norm)]
      ensures s == FreshScore(r, records[i].tool, old(args)[i], old(args)[j])
    {
      var pol := r.cfg.For(records[i].tool);
      var hashA, selectedA := Analyse(r, i, pol);
      var hashB, selectedB := Analyse(r, j, pol);
      s := Score(hashA, hashB, hashA == hashB, r.similarity(selectedA, selectedB));
    }

    /** The scoring loop of `Evaluate`.  Whatever the order of the pairs and however often a
        record occurs, every pair gets the score fresh copies of its records would get. */
    method ScoreAll(r: Runner, pairs: seq<(nat, nat)>) returns (scores: seq<Score>)
      requires Valid() && KeepsSpaces(r.t) && Lawful(r, records, args)
      requires SameTools(records, pairs)
      modifies this
      ensures Valid() && scores == FreshScores(r, records, old(args), pairs)
    {
      ghost var want := FreshScores(r, records, args, pairs);
      FreshIsWanted(r, records, args, pairs);
      UntouchedIsSeen(r, records, args);
      scores := ScoreEach(r, pairs, args, want);
    }

    method ScoreEach(r: Runner, pairs: seq<(nat, nat)>, ghost was: seq<Args>, ghost want: seq<Score>)
      returns (scores: seq<Score>)
      requires Valid() && KeepsSpaces(r.t) && |was| == |records| && SameTools(records, pairs)
      requires Lawful(r, records, was) && AllSeen(r, records, was, args) && Wanted(r, records, was, pairs, want)
      modifies this
      ensures Valid() && scores == want
    {
      scores := [];
      while |scores| < |pairs|
        invariant |scores| <= |pairs| && Valid() && AllSeen(r, records, was, args)
        invariant scores == want[..|scores|]
      {
        var s := ScoreNext(r, pairs, |scores|, was, want);
        scores := scores + [s];
      }
    }

    /** One turn: records that were seen before score as they did when they were fresh. */
    method ScoreNext(r: Runner, pairs: seq<(nat, nat)>, k: nat, ghost was: seq<Args>, ghost want: seq<Score>)
      returns (s: Score)
      requires Valid() && KeepsSpaces(r.t) && |was| == |records| && SameTools(records, pairs) && k < |pairs|
      requires Lawful(r, records, was) && AllSeen(r, records, was, args) && Wanted(r, records, was, pairs, want)
      modifies this
      ensures Valid() && AllSeen(r, records, was, args) && s == want[k]
    {
      assert WantedAt(r, records, was, pairs, want, k);
      PairOfSeen(r, records, was, args, pairs[k]);
      s := ScorePair(r, pairs[k].0, pairs[k].1);
    }
  }

  predicate SameTools(records: seq<Record>, pairs: seq<(nat, nat)>) {
    forall k :: 0 <= k < |pairs| ==> SameTool(records, pairs[k])
  }

  /** The scores fresh copies of the records would get. */
  ghost function FreshScores(r: Runner, records: seq<Record>, args: seq<Args>, pairs: seq<(nat, nat)>): (scores: seq<Score>)
    requires |args| == |records| && SameTools(records, pairs)
    ensures |scores| == |pairs|
  {
    seq(|pairs|, k requires 0 <= k < |pairs| => FreshPair(r, records, args, pairs[k]))
  }

  ghost predicate WantedAt(r: Runner, records: seq<Record>, was: seq<Args>, pairs: seq<(nat, nat)>, want: seq<Score>, k: nat)
    requires |was| == |records| && SameTools(records, pairs) && k < |pairs| == |want|
  {
    want[k] == FreshPair(r, records, was, pairs[k])
  }

  ghost predicate Wanted(r: Runner, records: seq<Record>, was: seq<Args>, pairs: seq<(nat, nat)>, want: seq<Score>)
    requires |was| == |records| && SameTools(records, pairs)
  {
    |want| == |pairs| && forall k :: 0 <= k < |pairs| ==> WantedAt(r, records, was, pairs, want, k)
  }

  lemma FreshIsWanted(r: Runner, records: seq<Record>, args: seq<Args>, pairs: seq<(nat, nat)>)
    requires |args| == |records| && SameTools(records, pairs)
    ensures Wanted(r, records, args, pairs, FreshScores(r, records, args, pairs))
  {
  }

  predicate Lawful(r: Runner, records: seq<Record>, args: seq<Args>)
    requires |args| == |records|
  {
    forall i :: 0 <= i < |records| ==> LawfulArgs(r.t, args[i], r.cfg.For(records[i].tool).normalize)
  }

  predicate SeenAt(r: Runner, records: seq<Record>, was: seq<Args>, now: seq<Args>, i: nat)
    requires |was| == |now| == |records| && i < |records|
  {
    Seen(r, records[i].tool, was[i], now[i])
  }

  predicate AllSeen(r: Runner, records: seq<Record>, was: seq<Args>, now: seq<Args>)
    requires |was| == |now| == |records|
  {
    forall i {:trigger SeenAt(r, records, was, now, i)} :: 0 <= i < |records| ==> SeenAt(r, records, was, now, i)
  }

  lemma UntouchedIsSeen(r: Runner, records: seq<Record>, args: seq<Args>)
    requires |args| == |records|
    ensures AllSeen(r, records, args, args)
  {
  }

  ghost function FreshPair(r: Runner, records: seq<Record>, args: seq<Args>, p: (nat, nat)): Score
    requires |args| == |records| && SameTool(records, p)
  {
    FreshScore(r, records[p.0].tool, args[p.0], args[p.1])
  }

  /** One turn of the loop: the pair scores as fresh, and everything is still as seen. */
  lemma PairOfSeen(r: Runner, records: seq<Record>, was: seq<Args>, now: seq<Args>, p: (nat, nat))
    requires |was| == |now| == |records| && KeepsSpaces(r.t) && Lawful(r, records, was) && SameTool(records, p)
    requires AllSeen(r, records, was, now)
    ensures FreshPair(r, records, now, p) == FreshPair(r, records, was, p)
    ensures var norm := r.cfg.For(records[p.0].tool).normalize;
      AllSeen(r, records, was, now[p.0 := Normalized(r.t, now[p.0], norm)][p.1 := Normalized(r.t, now[p.1], norm)])
  {
    assert SeenAt(r, records, was, now, p.0) && SeenAt(r, records, was, now, p.1);
    ScoreOfSeen(r, records[p.0].tool, was[p.0], was[p.1], now[p.0], now[p.1]);
    var norm := r.cfg.For(records[p.0].tool).normalize;
    var after := now[p.0 := Normalized(r.t, now[p.0], norm)][p.1 := Normalized(r.t, now[p.1], norm)];
    forall i | 0 <= i < |records| ensures SeenAt(r, records, was, after, i) {
      assert SeenAt(r, records, was, now, i);
    }
  }

  /** `BuildPairs`: each unordered pair of records with the same tool, once.  The groups come
      out in whatever order the map of tools is iterated. */
  method BuildPairs(records: seq<Record>) returns (pairs: seq<(nat, nat)>)
    ensures forall p: (nat, nat) :: p in pairs <==> SameTool(records, p)
    ensures forall x, y :: 0 <= x < y < |pairs| ==> pairs[x] != pairs[y]
  {
    var byTool := GroupByTool(records);
    pairs := [];
    var left := byTool.Keys;
    while left != {}
      invariant left <= byTool.Keys
      invariant forall p: (nat, nat) :: p in pairs <==> SameTool(records, p) && records[p.0].tool !in left
      invariant forall x, y :: 0 <= x < y < |pairs| ==> pairs[x] != pairs[y]
      decreases |left|
    {
      var tool :| tool in left;
      left := left - {tool};
      assert GroupOf(records, |records|, byTool, tool);
      var group := PairsWithin(byTool[tool]);
      forall p: (nat, nat) ensures p in group <==> SameTool(records, p) && records[p.0].tool == tool {
        GroupPairs(records, byTool, tool, p);
      }
      pairs := pairs + group;
    }
  }

  method GroupByTool(records: seq<Record>) returns (byTool: map<string, seq<nat>>)
    ensures Grouped(records, |records|, byTool)
  {
    byTool := map[];
    var n := 0;
    while n < |records|
      invariant 0 <= n <= |records|
      invariant Grouped(records, n, byTool)
    {
      var tool := records[n].tool;
      GroupedNext(records, n, byTool);
      byTool := byTool[tool := (if tool in byTool then byTool[tool] else []) + [n]];
      n := n + 1;
    }
  }

  /** `idxs` lists the positions of the tool's records below `n` in ascending order. */
  ghost predicate Group(records: seq<Record>, n: nat, tool: string, idxs: seq<nat>)
    requires n <= |records|
  {
    && Ascending(idxs)
    && (forall x :: 0 <= x < |idxs| ==> idxs[x] < n && records[idxs[x]].tool == tool)
    && (forall i {:trigger i in idxs} :: 0 <= i < n && records[i].tool == tool ==> i in idxs)
  }

  /** `byTool` lists, for each tool, the positions of its records in ascending order. */
  ghost predicate Grouped(records: seq<Record>, n: nat, byTool: map<string, seq<nat>>)
    requires n <= |records|
  {
    && (forall i :: 0 <= i < n ==> records[i].tool in byTool)
    && (forall tool :: GroupOf(records, n, byTool, tool))
  }

  ghost predicate GroupOf(records: seq<Record>, n: nat, byTool: map<string, seq<nat>>, tool: string)
    requires n <= |records|
  {
    tool in byTool ==> Group(records, n, tool, byTool[tool])
  }

  lemma GroupNext(records: seq<Record>, n: nat, idxs: seq<nat>)
    requires n < |records| && Group(records, n, records[n].tool, idxs)
    ensures Group(records, n + 1, records[n].tool, idxs + [n])
  {
    AscendingAppend(idxs, n);
    forall i | 0 <= i < n + 1 && records[i].tool == records[n].tool ensures i in idxs + [n] {
      if i == n { assert (idxs + [n])[|idxs|] == n; } else { assert i in idxs; }
    }
  }

  lemma OtherGroup(records: seq<Record>, n: nat, tool: string, idxs: seq<nat>)
    requires n < |records| && Group(records, n, tool, idxs) && records[n].tool != tool
    ensures Group(records, n + 1, tool, idxs)
  {
  }

  lemma EmptyGroup(records: seq<Record>, n: nat, byTool: map<string, seq<nat>>, tool: string)
    requires n <= |records| && Grouped(records, n, byTool) && tool !in byTool
    ensures Group(records, n, tool, [])
  {
    assert forall i :: 0 <= i < n ==> records[i].tool in byTool;
  }

  lemma GroupOfNext(records: seq<Record>, n: nat, byTool: map<string, seq<nat>>, idxs: seq<nat>, other: string)
    requires n < |records| && GroupOf(records, n, byTool, other) && Group(records, n + 1, records[n].tool, idxs)
    ensures GroupOf(records, n + 1, byTool[records[n].tool := idxs], other)
  {
    if other in byTool && other != records[n].tool { OtherGroup(records, n, other, byTool[other]); }
  }

  lemma GroupedNext(records: seq<Record>, n: nat, byTool: map<string, seq<nat>>)
    requires n < |records| && Grouped(records, n, byTool)
    ensures var tool := records[n].tool;
      Grouped(records, n + 1, byTool[tool := (if tool in byTool then byTool[tool] else []) + [n]])
  {
    var tool := records[n].tool;
    var idxs := if tool in byTool then byTool[tool] else [];
    assert GroupOf(records, n, byTool, tool);
    if tool !in byTool { EmptyGroup(records, n, byTool, tool); }
    GroupNext(records, n, idxs);
    GroupsNext(records, n, byTool, idxs + [n]);
  }

  lemma GroupsNext(records: seq<Record>, n: nat, byTool: map<string, seq<nat>>, idxs: seq<nat>)
    requires n < |records| && Grouped(records, n, byTool) && Group(records, n + 1, records[n].tool, idxs)
    ensures Grouped(records, n + 1, byTool[records[n].tool := idxs])
  {
    var after := byTool[records[n].tool := idxs];
    forall other {:trigger GroupOf(records, n + 1, after, other)} ensures GroupOf(records, n + 1, after, other) {
      assert GroupOf(records, n, byTool, other);
      GroupOfNext(records, n, byTool, idxs, other);
    }
  }

  ghost predicate Ascending(xs: seq<nat>) {
    forall i, j :: 0 <= i < j < |xs| ==> xs[i] < xs[j]
  }

  lemma GroupPairs(records: seq<Record>, byTool: map<string, seq<nat>>, tool: string, p: (nat, nat))
    requires Grouped(records, |records|, byTool) && tool in byTool
    ensures p.0 in byTool[tool] && p.1 in byTool[tool] && p.0 < p.1
            <==> SameTool(records, p) && records[p.0].tool == tool
  {
    assert GroupOf(records, |records|, byTool, tool);
  }

  method PairsWithin(idxs: seq<nat>) returns (pairs: seq<(nat, nat)>)
    requires Ascending(idxs)
    ensures forall p: (nat, nat) :: p in pairs <==> p.0 in idxs && p.1 in idxs && p.0 < p.1
    ensures forall x, y :: 0 <= x < y < |pairs| ==> pairs[x] != pairs[y]
  {
    pairs := [];
    var i := 0;
    while i < |idxs|
      invariant 0 <= i <= |idxs|
      invariant forall p: (nat, nat) :: p in pairs <==> p.0 in idxs[..i] && p.1 in idxs && p.0 < p.1
      invariant forall x, y :: 0 <= x < y < |pairs| ==> pairs[x] != pairs[y]
    {
      ghost var before := pairs;
      var j := i + 1;
      while j < |idxs|
        invariant i < j <= |idxs|
        invariant forall p: (nat, nat) :: p in pairs <==> p in before || (p.0 == idxs[i] && p.1 in idxs[i + 1..j])
        invariant forall x, y :: 0 <= x < y < |pairs| ==> pairs[x] != pairs[y]
      {
        NewPair(idxs, i, j);
        assert (idxs[i], idxs[j]) !in pairs;
        pairs := pairs + [(idxs[i], idxs[j])];
        j := j + 1;
      }
      LaterOnes(idxs, i);
      i := i + 1;
    }
    assert idxs[..|idxs|] == idxs;
  }

  lemma AscendingAppend(xs: seq<nat>, n: nat)
    requires Ascending(xs) && forall i :: 0 <= i < |xs| ==> xs[i] < n
    ensures Ascending(xs + [n])
  {
  }

  lemma NewPair(idxs: seq<nat>, i: nat, j: nat)
    requires Ascending(idxs) && i < j < |idxs|
    ensures idxs[i] !in idxs[..i] && idxs[j] !in idxs[i + 1..j]
    ensures idxs[i + 1..j + 1] == idxs[i + 1..j] + [idxs[j]]
  {
  }

  lemma LaterOnes(idxs: seq<nat>, i: nat)
    requires Ascending(idxs) && i < |idxs|
    ensures forall x :: x in idxs[i + 1..|idxs|] <==> x in idxs && idxs[i] < x
  {
    forall x | x in idxs && idxs[i] < x ensures x in idxs[i + 1..] {
      var k :| 0 <= k < |idxs| && idxs[k] == x;
      assert idxs[i + 1..][k - i - 1] == x;
    }
  }
}
