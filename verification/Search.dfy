/** The best semantic match (`semanticSearch` in internal/pipeline/pipeline.go).  The order of
    the scan is the backend's business. */
module Search {
  import opened Outcomes
  import opened Store
  import Embed

  datatype Match = Match(entry: Entry, score: real)

  /** Entries without an embedding, or with one of another dimension, have no similarity. */
  function Similarity(sqrt: real -> real, query: seq<real>, e: Entry): Option<real> {
    if e.embedding == [] then None else Embed.Cosine(sqrt, query, e.embedding)
  }

  predicate Reaches(sqrt: real -> real, query: seq<real>, threshold: real, e: Entry) {
    Similarity(sqrt, query, e).Some? && Similarity(sqrt, query, e).value >= threshold
  }

  /** What the search accepts: the running best score starts from zero. */
  predicate Qualifies(sqrt: real -> real, query: seq<real>, threshold: real, e: Entry) {
    Reaches(sqrt, query, threshold, e) && Similarity(sqrt, query, e).value > 0.0
  }

  /** `r` is a qualifying entry of the table with the greatest score, if there is one. */
  ghost predicate IsBest(entries: Table, sqrt: real -> real, query: seq<real>, threshold: real, r: Option<Match>) {
    match r
    case None => forall k :: k in entries ==> !Qualifies(sqrt, query, threshold, entries[k])
    case Some(m) =>
      && (exists k :: k in entries && entries[k] == m.entry)
      && Qualifies(sqrt, query, threshold, m.entry)
      && Similarity(sqrt, query, m.entry) == Some(m.score)
      && forall k :: k in entries && Qualifies(sqrt, query, threshold, entries[k]) ==>
           Similarity(sqrt, query, entries[k]).value <= m.score
  }

  predicate Always(e: Entry) { true }

  /** `query` is missing when the intent cannot be embedded.  `keys` is the order in which the
      backend happens to walk the live entries of the tool. */
  method SemanticSearch(sqrt: real -> real, query: Option<seq<real>>, threshold: real,
                        tab: Table, now: int, tool: string, keys: seq<string>, scanFails: bool)
    returns (r: Option<Match>)
    requires IsScan(keys, tab, now, tool, Always)
    ensures query.None? || scanFails ==> r == None
    ensures query.Some? && !scanFails ==> IsBest(Scanned(tab, now, tool), sqrt, query.value, threshold, r)
  {
    if query.None? { return None; }
    r := None;
    var bestScore := 0.0;
    var i := 0;
    while i < |keys|
      invariant 0 <= i <= |keys|
      invariant bestScore == if r.Some? then r.value.score else 0.0
      invariant bestScore >= 0.0
      invariant BestOfFirst(tab, keys, i, sqrt, query.value, threshold, r)
    {
      var e := tab[keys[i]];
      NextBest(tab, keys, i, sqrt, query.value, threshold, r, bestScore);
      if e.embedding != [] {
        var score := Embed.Cosine(sqrt, query.value, e.embedding);
        if score.Some? && score.value >= threshold && score.value > bestScore {
          r := Some(Match(e, score.value));
          bestScore := score.value;
        }
      }
      i := i + 1;
    }
    if scanFails { return None; }
    BestOfAll(tab, now, tool, keys, sqrt, query.value, threshold, r);
  }

  ghost predicate BestOfFirst(tab: Table, keys: seq<string>, n: nat, sqrt: real -> real, query: seq<real>,
                              threshold: real, r: Option<Match>)
    requires n <= |keys| && forall i :: 0 <= i < |keys| ==> keys[i] in tab
  {
    match r
    case None => forall i :: 0 <= i < n ==> !Qualifies(sqrt, query, threshold, tab[keys[i]])
    case Some(m) =>
      && (exists i :: 0 <= i < n && tab[keys[i]] == m.entry)
      && Qualifies(sqrt, query, threshold, m.entry)
      && Similarity(sqrt, query, m.entry) == Some(m.score)
      && forall i :: 0 <= i < n && Qualifies(sqrt, query, threshold, tab[keys[i]]) ==>
           Similarity(sqrt, query, tab[keys[i]]).value <= m.score
  }

  /** The best so far stays the best unless the next entry qualifies with a greater score. */
  lemma NextBest(tab: Table, keys: seq<string>, n: nat, sqrt: real -> real, query: seq<real>,
                 threshold: real, r: Option<Match>, best: real)
    requires n < |keys| && (forall i :: 0 <= i < |keys| ==> keys[i] in tab)
    requires BestOfFirst(tab, keys, n, sqrt, query, threshold, r)
    requires best == (if r.Some? then r.value.score else 0.0) >= 0.0
    ensures var e := tab[keys[n]];
      var s := Similarity(sqrt, query, e);
      if s.Some? && s.value >= threshold && s.value > best
      then BestOfFirst(tab, keys, n + 1, sqrt, query, threshold, Some(Match(e, s.value)))
      else BestOfFirst(tab, keys, n + 1, sqrt, query, threshold, r)
  {
    var e := tab[keys[n]];
    var s := Similarity(sqrt, query, e);
    if s.Some? && s.value >= threshold && s.value > best {
      assert tab[keys[n]] == e && Qualifies(sqrt, query, threshold, e);
    }
  }

  lemma BestOfAll(tab: Table, now: int, tool: string, keys: seq<string>, sqrt: real -> real, query: seq<real>,
                  threshold: real, r: Option<Match>)
    requires IsScan(keys, tab, now, tool, Always)
    requires BestOfFirst(tab, keys, |keys|, sqrt, query, threshold, r)
    ensures IsBest(Scanned(tab, now, tool), sqrt, query, threshold, r)
  {
    var live := Scanned(tab, now, tool);
    forall k | k in live ensures exists i :: 0 <= i < |keys| && tab[keys[i]] == live[k] {
      assert Matches(tab, now, tool, k);
      var i :| 0 <= i < |keys| && keys[i] == k;
    }
    if r.Some? {
      var i :| 0 <= i < |keys| && tab[keys[i]] == r.value.entry;
      assert keys[i] in live && live[keys[i]] == r.value.entry;
    }
  }

  /** For a positive threshold a match is found exactly when some live entry of the tool
      reaches it, and the score found is the same whatever the order of the scan. */
  lemma FoundIffReached(entries: Table, sqrt: real -> real, query: seq<real>, threshold: real,
                        r: Option<Match>, r': Option<Match>)
    requires threshold > 0.0
    requires IsBest(entries, sqrt, query, threshold, r) && IsBest(entries, sqrt, query, threshold, r')
    ensures r.Some? <==> exists k :: k in entries && Reaches(sqrt, query, threshold, entries[k])
    ensures r.Some? <==> r'.Some?
    ensures r.Some? && r'.Some? ==> r.value.score == r'.value.score >= threshold
    ensures r.Some? ==> forall k :: k in entries && Reaches(sqrt, query, threshold, entries[k]) ==>
      Similarity(sqrt, query, entries[k]).value <= r.value.score
  {
    forall k | k in entries
      ensures Qualifies(sqrt, query, threshold, entries[k]) <==> Reaches(sqrt, query, threshold, entries[k])
    {
    }
    if r.Some? {
      var k :| k in entries && entries[k] == r.value.entry;
      assert Qualifies(sqrt, query, threshold, entries[k]);
    }
    if r'.Some? {
      var k :| k in entries && entries[k] == r'.value.entry;
      assert Qualifies(sqrt, query, threshold, entries[k]);
    }
  }
}
