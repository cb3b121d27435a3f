/** From arguments to what happens to a call: the fingerprints of `Fingerprint` put into the
    pipeline and the stdio proxy. */
module EndToEnd {
  import opened Outcomes
  import opened Canonical
  import opened Fingerprint
  import opened Policy
  import KeyOrder
  import Normalizer
  import Store
  import Pipeline
  import PipelineRuns
  import PipelineLaws
  import Gateway
  import Stdio
  import StdioRuns
  import StdioFrames

  /** How `analyse` works: the hash function, the Unicode tables and the JSON decoder. */
  datatype Analyser = Analyser(sha: string -> string, t: Normalizer.Tables, decode: string -> Option<Args>)
  {
    /** An empty body counts as the empty object. */
    function ArgsOf(body: string): Option<Args> { if body == "" then Some(map[]) else decode(body) }

    /** Digests are hex: never empty, no NUL. */
    ghost predicate Valid() { forall x :: sha(x) != "" && Store.NulFree(sha(x)) }
  }

  ghost predicate Fingerprinted(env: Pipeline.Env, i: nat, an: Analyser)
    requires i < |env.reqs|
  {
    match an.ArgsOf(env.reqs[i].body)
    case None => env.Analysed(i) == None
    case Some(args) => env.Analysed(i).Some? && env.Hash(i) == an.sha(Preimage(an.t, args, env.Pol(i)))
  }

  /** The pipeline's fingerprints are those of `an`. */
  ghost predicate AnalysesBy(env: Pipeline.Env, an: Analyser) {
    an.Valid() && forall i :: 0 <= i < |env.reqs| ==> Fingerprinted(env, i, an)
  }

  /** The two bodies are of one tool and agree on every field its policy looks at. */
  ghost predicate SameCall(env: Pipeline.Env, an: Analyser, i: nat, j: nat)
    requires i < |env.reqs| && j < |env.reqs|
  {
    && env.Tool(i) == env.Tool(j)
    && var a, b := an.ArgsOf(env.reqs[i].body), an.ArgsOf(env.reqs[j].body);
       a.Some? && b.Some? && forall k :: Relevant(env.Pol(i), k) ==> SameField(an.t, a.value, b.value, env.Pol(i), k)
  }

  /** A call without a body has the fingerprint of the empty object. */
  lemma NoBodyIsEmptyObject(env: Pipeline.Env, an: Analyser, i: nat)
    requires AnalysesBy(env, an) && i < |env.reqs| && env.reqs[i].body == ""
    ensures env.Hash(i) == an.sha("{}")
  {
    assert Fingerprinted(env, i, an);
    assert Essence(an.t, map[], env.Pol(i)) == map[];
    var o := Object(map[]);
    assert o.fields.Keys == {} && |KeyOrder.Sorted(o.fields.Keys)| == 0;
    assert CanonMembers(o, []) == "" && Canon(o) == "{}";
  }

  lemma HashesAreNulFree(env: Pipeline.Env, an: Analyser)
    requires AnalysesBy(env, an)
    ensures PipelineLaws.NulFreeHashes(env)
  {
    forall i | 0 <= i < |env.reqs| ensures Store.NulFree(env.Hash(i)) {
      assert Fingerprinted(env, i, an);
    }
  }

  lemma SameCallSameHash(env: Pipeline.Env, an: Analyser, i: nat, j: nat)
    requires AnalysesBy(env, an) && i < |env.reqs| && j < |env.reqs| && SameCall(env, an, i, j)
    ensures env.Hash(i) == env.Hash(j) != ""
  {
    assert Fingerprinted(env, i, an) && Fingerprinted(env, j, an);
    SamePreimageIff(an.t, an.ArgsOf(env.reqs[i].body).value, an.ArgsOf(env.reqs[j].body).value, env.Pol(i));
  }

  /** Once an answer is cached, a call of the same tool whose arguments agree with the first one's,
      field by field after normalisation, and that has not read the store yet is neither forwarded
      nor made to wait as long as the time to live lasts. */
  lemma RetryIsNotForwarded(env: Pipeline.Env, an: Analyser, s: Pipeline.State, i: nat,
                            steps: seq<Pipeline.Step>, end: Pipeline.State, j: nat)
    requires AnalysesBy(env, an) && PipelineRuns.Inv(env, s)
    requires Pipeline.CanStep(env, s, Pipeline.Call(i, Pipeline.Put(Pipeline.Written)))
    requires Pipeline.IsRun(env, Pipeline.Next(env, s, Pipeline.Call(i, Pipeline.Put(Pipeline.Written))), steps, end)
    requires j < |s.pcs| && SameCall(env, an, i, j) && env.Tool(i) != "" && PipelineLaws.NotYetRead(s.pcs[j])
    requires Pipeline.Call(j, Pipeline.Read(false)) !in steps && PipelineLaws.NeverForgets(steps, env.Key(j))
    requires PipelineLaws.Within(env.Pol(j).ttl, s.shared.now, end.shared.now)
    ensures j < |end.pcs| && !PipelineLaws.WentOn(end.pcs[j]) && PipelineRuns.Invocations(end.pcs[j]) == 0
  {
    SameCallSameHash(env, an, i, j);
    HashesAreNulFree(env, an);
    PipelineLaws.NulFreeKeysAreDistinct(env);
    PipelineLaws.NoForwardWithinTtl(env, s, i, steps, end, j);
  }

  // ---- the stdio proxy

  /** A lookup of request `i` can send it to the child, keyed by `hash`: everything that is not a
      replay or a block is, refusals included. */
  ghost predicate DispatchedAs(env: Pipeline.Env, i: nat, hash: string)
    requires i < |env.reqs|
  {
    exists tab, now, allowed, ok, found :: Dispatches(env, i, Gateway.LookedUp(env, i, tab, now, allowed, ok, found), hash)
  }

  predicate Dispatches(env: Pipeline.Env, i: nat, r: Gateway.Reply, hash: string) {
    r.Reply? && !r.result.decision.Replay? && !r.result.decision.Block? && r.result.hash == hash
  }

  /** The calls that are dispatched without a fingerprint. */
  predicate Unhashed(env: Pipeline.Env, i: nat)
    requires i < |env.reqs|
  {
    var pol := env.Pol(i);
    pol.mode == Off || !pol.AllowsCaller(env.reqs[i].caller) || pol.rps > 0.0
  }

  /** The key is the fingerprint or empty. */
  lemma DispatchHash(env: Pipeline.Env, i: nat, hash: string)
    requires i < |env.reqs| && DispatchedAs(env, i, hash)
    ensures hash == "" || (hash == env.Hash(i) && env.Analysed(i).Some?)
  {
  }

  /** It can be empty exactly for tools in off mode, for callers not on the list and for tools with
      a rate limit. */
  lemma EmptyHashIff(env: Pipeline.Env, an: Analyser, i: nat)
    requires AnalysesBy(env, an) && i < |env.reqs|
    ensures DispatchedAs(env, i, "") <==> Unhashed(env, i)
  {
    assert Fingerprinted(env, i, an);
    if Unhashed(env, i) {
      assert Dispatches(env, i, Gateway.LookedUp(env, i, map[], 0, false, true, None), "");
    }
  }

  /** Every request was dispatched under what a lookup of its body gave. */
  ghost predicate AskedBy(env: Pipeline.Env, asked: map<Stdio.Id, string>, req: map<Stdio.Id, nat>) {
    forall id :: id in asked ==> id in req && req[id] < |env.reqs| && DispatchedAs(env, req[id], asked[id])
  }

  /** In every run, a response copied from a leader under a non-empty hash answers a request whose
      normalised, selected arguments are the leader's; if both are of one tool they agree field by
      field on everything its policy looks at. */
  lemma CopyAnswersSameArguments(env: Pipeline.Env, an: Analyser, steps: seq<StdioRuns.Step>, end: StdioRuns.State,
                                 req: map<Stdio.Id, nat>, id: Stdio.Id, leader: Stdio.Id)
    requires AnalysesBy(env, an) && InjectiveHash(an.sha)
    requires StdioRuns.IsRun(StdioRuns.START, steps, end) && AskedBy(env, end.asked, req)
    requires StdioRuns.Fanned(id, leader) in end.out && (id in end.asked ==> end.asked[id] != "")
    ensures id in end.asked && leader in end.asked && end.asked[leader] == end.asked[id]
    ensures SameEssences(env, an, req[id], req[leader])
    ensures env.Tool(req[id]) == env.Tool(req[leader]) ==> SameCall(env, an, req[id], req[leader])
  {
    StdioRuns.EveryRunIsGood(steps, end);
    var k :| 0 <= k < |end.out| && end.out[k] == StdioRuns.Fanned(id, leader);
    assert StdioRuns.FrameRole(end.out[k], end.asked, end.queued);
    SameHashSameEssence(env, an, req[id], req[leader], end.asked[id]);
  }

  lemma SameHashSameEssence(env: Pipeline.Env, an: Analyser, i: nat, j: nat, hash: string)
    requires AnalysesBy(env, an) && InjectiveHash(an.sha) && i < |env.reqs| && j < |env.reqs|
    requires DispatchedAs(env, i, hash) && DispatchedAs(env, j, hash) && hash != ""
    ensures SameEssences(env, an, i, j) && (env.Tool(i) == env.Tool(j) ==> SameCall(env, an, i, j))
  {
    DispatchHash(env, i, hash);
    DispatchHash(env, j, hash);
    SameHashIff(env, an, i, j);
    if env.Tool(i) == env.Tool(j) {
      assert Fingerprinted(env, i, an) && Fingerprinted(env, j, an);
      SamePreimageIff(an.t, an.ArgsOf(env.reqs[i].body).value, an.ArgsOf(env.reqs[j].body).value, env.Pol(i));
    }
  }

  /** A lookup can dispatch request `i` under its fingerprint exactly when its tool is not off, its
      caller is allowed and its body is an object. */
  lemma FingerprintDispatchIff(env: Pipeline.Env, an: Analyser, i: nat)
    requires AnalysesBy(env, an) && i < |env.reqs| && env.Analysed(i).Some?
    ensures DispatchedAs(env, i, env.Hash(i)) <==> Dispatchable(env, i)
  {
    assert Fingerprinted(env, i, an);
    if Dispatchable(env, i) {
      assert Dispatches(env, i, Gateway.LookedUp(env, i, map[], 0, true, true, None), env.Hash(i));
    }
  }

  predicate Dispatchable(env: Pipeline.Env, i: nat)
    requires i < |env.reqs|
  {
    env.Pol(i).mode != Off && env.Pol(i).AllowsCaller(env.reqs[i].caller)
  }

  /** What the client pump hands to the proxy for request `i`. */
  function Handed(env: Pipeline.Env, i: nat, hash: string, deadline: Option<int>): Stdio.PendingCall
    requires i < |env.reqs|
  {
    Stdio.PendingCall(env.Tool(i), env.reqs[i].body, hash, deadline)
  }

  ghost predicate CanShare(env: Pipeline.Env, i: nat, j: nat, hash: string, x: Stdio.Id, y: Stdio.Id, deadline: Option<int>)
    requires i < |env.reqs| && j < |env.reqs|
  {
    && DispatchedAs(env, i, hash) && DispatchedAs(env, j, hash)
    && exists steps, end ::
         StdioFrames.Copied(x, Handed(env, i, hash, deadline), y, Handed(env, j, hash, deadline), steps, end)
  }

  /** Under the empty hash anything goes: two requests dispatched without a fingerprint, whatever
      their tools and arguments, and the second can be answered with the first one's response. */
  lemma StrangersShareEmptyHash(env: Pipeline.Env, an: Analyser, i: nat, j: nat, x: Stdio.Id, y: Stdio.Id, deadline: Option<int>)
    requires AnalysesBy(env, an) && i < |env.reqs| && j < |env.reqs| && x != "" && x != y
    ensures CanShare(env, i, j, "", x, y, deadline) <==> Unhashed(env, i) && Unhashed(env, j)
  {
    EmptyHashIff(env, an, i);
    EmptyHashIff(env, an, j);
    StdioFrames.CopiedIff(x, Handed(env, i, "", deadline), y, Handed(env, j, "", deadline));
  }

  /** Requests of different tools can share a response under their fingerprint as well, exactly when
      both can be dispatched under it and their normalised, selected arguments are the same: the
      in-flight map does not know tools. */
  lemma ToolsShareFingerprintIff(env: Pipeline.Env, an: Analyser, i: nat, j: nat, x: Stdio.Id, y: Stdio.Id, deadline: Option<int>)
    requires AnalysesBy(env, an) && InjectiveHash(an.sha) && i < |env.reqs| && j < |env.reqs| && x != "" && x != y
    requires env.Analysed(i).Some? && env.Analysed(j).Some?
    ensures CanShare(env, i, j, env.Hash(i), x, y, deadline)
            <==> Dispatchable(env, i) && Dispatchable(env, j) && SameEssences(env, an, i, j)
  {
    FingerprintDispatchIff(env, an, i);
    FingerprintDispatchIff(env, an, j);
    SameHashIff(env, an, i, j);
    assert Fingerprinted(env, i, an);
    if DispatchedAs(env, j, env.Hash(i)) { DispatchHash(env, j, env.Hash(i)); }
    StdioFrames.CopiedIff(x, Handed(env, i, env.Hash(i), deadline), y, Handed(env, j, env.Hash(i), deadline));
  }

  ghost predicate SameEssences(env: Pipeline.Env, an: Analyser, i: nat, j: nat)
    requires i < |env.reqs| && j < |env.reqs|
  {
    var a, b := an.ArgsOf(env.reqs[i].body), an.ArgsOf(env.reqs[j].body);
    a.Some? && b.Some? && Essence(an.t, a.value, env.Pol(i)) == Essence(an.t, b.value, env.Pol(j))
  }

  lemma SameHashIff(env: Pipeline.Env, an: Analyser, i: nat, j: nat)
    requires AnalysesBy(env, an) && InjectiveHash(an.sha) && i < |env.reqs| && j < |env.reqs|
    requires env.Analysed(i).Some? && env.Analysed(j).Some?
    ensures env.Hash(i) == env.Hash(j) <==> SameEssences(env, an, i, j)
  {
    assert Fingerprinted(env, i, an) && Fingerprinted(env, j, an);
    var a, b := an.ArgsOf(env.reqs[i].body).value, an.ArgsOf(env.reqs[j].body).value;
    CanonInjective(Object(Essence(an.t, a, env.Pol(i))), Object(Essence(an.t, b, env.Pol(j))));
  }
}
