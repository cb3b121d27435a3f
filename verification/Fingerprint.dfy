/** From the arguments of a tool call to its fingerprint: normalise, select the
    fingerprint fields, print canonically, hash (`analyse` in internal/pipeline and
    internal/eval, `Exact` in internal/fingerprint). */
module Fingerprint {
  import opened Outcomes
  import opened Canonical
  import opened Normalizer
  import opened Policy

  type Args = map<string, Value>

  function NormalValue(t: Tables, v: Value, transforms: seq<string>): Value {
    if v.Text? then Text(Applied(t, v.text, transforms)) else v
  }

  /** Text fields with a transform list are normalised; everything else is kept. */
  function Normalized(t: Tables, raw: Args, norm: map<string, seq<string>>): Args {
    map k | k in raw :: if k in norm then NormalValue(t, raw[k], norm[k]) else raw[k]
  }

  /** An empty field list selects everything. */
  function Selected(raw: Args, fields: seq<string>): Args {
    if fields == [] then raw else map k | k in raw && k in fields :: raw[k]
  }

  function Essence(t: Tables, raw: Args, pol: ToolPolicy): Args {
    Selected(Normalized(t, raw, pol.normalize), pol.fingerprintFields)
  }

  /** The bytes that are hashed. */
  ghost function Preimage(t: Tables, raw: Args, pol: ToolPolicy): string {
    Canon(Object(Essence(t, raw, pol)))
  }

  // ---- which calls share a fingerprint

  predicate Relevant(pol: ToolPolicy, k: string) {
    pol.fingerprintFields == [] || k in pol.fingerprintFields
  }

  /** The two calls agree on one field after normalisation, presence included. */
  predicate SameField(t: Tables, a: Args, b: Args, pol: ToolPolicy, k: string) {
    && (k in a <==> k in b)
    && (k in a && k in b ==>
          if k in pol.normalize
          then NormalValue(t, a[k], pol.normalize[k]) == NormalValue(t, b[k], pol.normalize[k])
          else a[k] == b[k])
  }

  lemma EssenceAt(t: Tables, a: Args, pol: ToolPolicy, k: string)
    ensures k in Essence(t, a, pol) <==> k in a && Relevant(pol, k)
    ensures k in a && Relevant(pol, k) ==>
      Essence(t, a, pol)[k] == if k in pol.normalize then NormalValue(t, a[k], pol.normalize[k]) else a[k]
  {
  }

  lemma SameEssence(t: Tables, a: Args, b: Args, pol: ToolPolicy)
    requires forall k :: Relevant(pol, k) ==> SameField(t, a, b, pol, k)
    ensures Essence(t, a, pol) == Essence(t, b, pol)
  {
    var x, y := Essence(t, a, pol), Essence(t, b, pol);
    forall k ensures (k in x <==> k in y) && (k in x && k in y ==> x[k] == y[k]) {
      EssenceAt(t, a, pol, k);
      EssenceAt(t, b, pol, k);
    }
    assert x.Keys == y.Keys;
  }

  /** Two calls get the same pre-image exactly when they agree, field by field, on everything
      the policy looks at.  Key order and the other fields play no part. */
  lemma SamePreimageIff(t: Tables, a: Args, b: Args, pol: ToolPolicy)
    ensures Preimage(t, a, pol) == Preimage(t, b, pol)
            <==> forall k :: Relevant(pol, k) ==> SameField(t, a, b, pol, k)
  {
    CanonInjective(Object(Essence(t, a, pol)), Object(Essence(t, b, pol)));
    if forall k :: Relevant(pol, k) ==> SameField(t, a, b, pol, k) {
      SameEssence(t, a, b, pol);
    } else if Essence(t, a, pol) == Essence(t, b, pol) {
      forall k | Relevant(pol, k) ensures SameField(t, a, b, pol, k) {
        EssenceAt(t, a, pol, k);
        EssenceAt(t, b, pol, k);
      }
    }
  }

  ghost predicate InjectiveHash(sha: string -> string) {
    forall a, b :: sha(a) == sha(b) ==> a == b
  }

  /** With a collision-free hash the same holds of the fingerprints themselves. */
  lemma SameFingerprintIff(sha: string -> string, t: Tables, a: Args, b: Args, pol: ToolPolicy)
    requires InjectiveHash(sha)
    ensures sha(Preimage(t, a, pol)) == sha(Preimage(t, b, pol))
            <==> forall k :: Relevant(pol, k) ==> SameField(t, a, b, pol, k)
  {
    SamePreimageIff(t, a, b, pol);
  }

  /** The retry of the README: a text field whose words agree up to case, under a list that names
      "collapse_whitespace" and whose last case transform is "lowercase", does not change the
      fingerprint, whatever else the list says. */
  lemma RetryKeepsFingerprint(t: Tables, a: Args, field: string, x: string, y: string, pol: ToolPolicy)
    requires KeepsSpaces(t) && AllCaseLawful(t, x) && AllCaseLawful(t, y)
    requires field in pol.normalize
    requires "collapse_whitespace" in pol.normalize[field] && LastCase(pol.normalize[field], "lowercase")
    requires Words(t, MapCase(t.lower, x)) == Words(t, MapCase(t.lower, y))
    ensures Preimage(t, a[field := Text(x)], pol) == Preimage(t, a[field := Text(y)], pol)
  {
    SameNormalForm(t, x, y, pol.normalize[field]);
    SamePreimageIff(t, a[field := Text(x)], a[field := Text(y)], pol);
  }

  lemma SameNormalForm(t: Tables, x: string, y: string, names: seq<string>)
    requires KeepsSpaces(t) && AllCaseLawful(t, x) && AllCaseLawful(t, y)
    requires "collapse_whitespace" in names && LastCase(names, "lowercase")
    requires Words(t, MapCase(t.lower, x)) == Words(t, MapCase(t.lower, y))
    ensures Applied(t, x, names) == Applied(t, y, names)
  {
    SummaryOfNames(names);
    Reduction(t, x, names);
    Reduction(t, y, names);
    SpacingUnderCase(t, x, Lower);
    SpacingUnderCase(t, y, Lower);
    CollapseIffSameWords(t, MapCase(t.lower, x), MapCase(t.lower, y));
  }

  // ---- normalising again

  predicate LawfulArgs(t: Tables, raw: Args, norm: map<string, seq<string>>) {
    forall k :: k in raw && k in norm && raw[k].Text? ==> AllCaseLawful(t, raw[k].text)
  }

  lemma NormalizedTwice(t: Tables, raw: Args, norm: map<string, seq<string>>)
    requires KeepsSpaces(t) && LawfulArgs(t, raw, norm)
    ensures Normalized(t, Normalized(t, raw, norm), norm) == Normalized(t, raw, norm)
  {
    forall k | k in raw && k in norm && raw[k].Text?
      ensures Applied(t, Applied(t, raw[k].text, norm[k]), norm[k]) == Applied(t, raw[k].text, norm[k])
    {
      Idempotent(t, raw[k].text, norm[k]);
    }
  }

  // ---- the loops

  /** The normalisation loop over a map of arguments; the map of transform lists is walked in
      whatever order iteration yields. */
  method NormalizeFields(t: Tables, args: Args, norm: map<string, seq<string>>) returns (raw: Args)
    requires t.space(' ')
    ensures raw == Normalized(t, args, norm)
  {
    raw := args;
    var left := norm.Keys;
    ExceptEnds(t, args, norm);
    while left != {}
      invariant left <= norm.Keys && raw == Except(t, args, norm, left)
      decreases |left|
    {
      var field :| field in left;
      assert left == (left - {field}) + {field};
      left := left - {field};
      ExceptNext(t, args, norm, left, field);
      if field in raw && raw[field].Text? {
        var text := Apply(t, raw[field].text, norm[field]);
        raw := raw[field := Text(text)];
      }
    }
  }

  /** Normalised but for the fields in `left`. */
  function Except(t: Tables, args: Args, norm: map<string, seq<string>>, left: set<string>): Args {
    map k | k in args :: if k in norm && k !in left then NormalValue(t, args[k], norm[k]) else args[k]
  }

  lemma ExceptEnds(t: Tables, args: Args, norm: map<string, seq<string>>)
    ensures Except(t, args, norm, norm.Keys) == args && Except(t, args, norm, {}) == Normalized(t, args, norm)
  {
  }

  lemma ExceptNext(t: Tables, args: Args, norm: map<string, seq<string>>, left: set<string>, field: string)
    requires field in norm && field !in left
    ensures var before, after := Except(t, args, norm, left + {field}), Except(t, args, norm, left);
      after == if field in before then before[field := NormalValue(t, before[field], norm[field])] else before
  {
  }

  method SelectFields(raw: Args, fields: seq<string>) returns (selected: Args)
    ensures selected == Selected(raw, fields)
  {
    selected := raw;
    if |fields| > 0 {
      selected := map[];
      var i := 0;
      while i < |fields|
        invariant 0 <= i <= |fields|
        invariant selected == map k | k in raw && k in fields[..i] :: raw[k]
      {
        if fields[i] in raw {
          selected := selected[fields[i] := raw[fields[i]]];
        }
        i := i + 1;
      }
      assert fields[..|fields|] == fields;
    }
  }

  /** `analyse`, up to the hash: a body is absent or holds the arguments of the call. */
  method Analyse(t: Tables, body: Option<Args>, pol: ToolPolicy) returns (preimage: string)
    requires t.space(' ')
    ensures preimage == if body.None? then "{}" else Preimage(t, body.value, pol)
  {
    match body
    case None =>
      preimage := Canonicalize(Object(map[]));
      assert CanonMembers(Object(map[]), []) == "";
    case Some(args) =>
      var raw := NormalizeFields(t, args, pol.normalize);
      var selected := SelectFields(raw, pol.fingerprintFields);
      preimage := Canonicalize(Object(selected));
  }
}
