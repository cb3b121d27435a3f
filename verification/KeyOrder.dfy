/** The order in which the program walks its string keys: `sort.Strings` before
    canonical printing, and the key order of the Bolt bucket.  Both compare byte
    by byte, which on UTF-8 text is the code point order used here. */
module KeyOrder {

  predicate Le(a: string, b: string) {
    a == [] || (b != [] && (a[0] < b[0] || (a[0] == b[0] && Le(a[1..], b[1..]))))
  }

  predicate Lt(a: string, b: string) {
    Le(a, b) && a != b
  }

  predicate HasPrefix(s: string, prefix: string) {
    |s| >= |prefix| && s[..|prefix|] == prefix
  }

  /** Strictly increasing, hence also free of duplicates. */
  predicate Increasing(ks: seq<string>) {
    forall i, j :: 0 <= i < j < |ks| ==> Lt(ks[i], ks[j])
  }

  /** The order is decided by the first difference: a proper prefix comes first, and otherwise the
      smaller of the two characters that differ. */
  lemma {:induction false} FirstDifference(common: string, a: string, b: string)
    ensures a == [] ==> Le(common + a, common + b)
    ensures a != [] && b != [] && a[0] < b[0] ==> Le(common + a, common + b) && !Le(common + b, common + a)
    ensures a != [] && b == [] ==> !Le(common + a, common + b)
  {
    if common == [] {
      assert common + a == a && common + b == b;
    } else {
      assert (common + a)[1..] == common[1..] + a && (common + b)[1..] == common[1..] + b;
      FirstDifference(common[1..], a, b);
    }
  }

  lemma {:induction false} LeTotal(a: string, b: string)
    ensures Le(a, b) || Le(b, a)
  {
    if a != [] && b != [] {
      LeTotal(a[1..], b[1..]);
    }
  }

  lemma {:induction false} LeAntisymmetric(a: string, b: string)
    requires Le(a, b) && Le(b, a)
    ensures a == b
  {
    if a != [] && b != [] {
      LeAntisymmetric(a[1..], b[1..]);
      assert a == [a[0]] + a[1..] && b == [b[0]] + b[1..];
    }
  }

  lemma {:induction false} LeTransitive(a: string, b: string, c: string)
    requires Le(a, b) && Le(b, c)
    ensures Le(a, c)
  {
    if a != [] && b[0] == a[0] == c[0] {
      LeTransitive(a[1..], b[1..], c[1..]);
    }
  }

  lemma LtTransitive(a: string, b: string, c: string)
    requires Le(a, b) && Lt(b, c)
    ensures Lt(a, c)
  {
    LeTransitive(a, b, c);
    if a == c {
      LeAntisymmetric(a, b);
    }
  }

  /** A prefix sorts no later than anything that extends it. */
  lemma {:induction false} PrefixSortsFirst(prefix: string, s: string)
    requires HasPrefix(s, prefix)
    ensures Le(prefix, s)
  {
    if prefix != [] {
      assert s[1..][..|prefix| - 1] == s[..|prefix|][1..];
      PrefixSortsFirst(prefix[1..], s[1..]);
    }
  }

  /** Keys that share a prefix are contiguous: nothing sorts between two of them without it. */
  lemma {:induction false} PrefixContiguous(prefix: string, mid: string, hi: string)
    requires HasPrefix(hi, prefix) && Le(prefix, mid) && Le(mid, hi)
    ensures HasPrefix(mid, prefix)
  {
    if prefix != [] {
      assert hi[0] == prefix[0] by { assert hi[..|prefix|][0] == hi[0]; }
      assert hi[1..][..|prefix| - 1] == hi[..|prefix|][1..];
      PrefixContiguous(prefix[1..], mid[1..], hi[1..]);
      assert mid[..|prefix|] == [mid[0]] + mid[1..][..|prefix| - 1];
    }
  }

  lemma {:induction false} LeastExists(s: set<string>) returns (least: string)
    requires s != {}
    ensures least in s && forall x | x in s :: Le(least, x)
  {
    var first :| first in s;
    LeTotal(first, first);
    least := first;
    var rest := s - {first};
    assert forall x | x in s :: x == first || x in rest;
    if rest != {} {
      var other := LeastExists(rest);
      LeTotal(first, other);
      if Le(first, other) {
        forall x | x in rest ensures Le(first, x) {
          LeTransitive(first, other, x);
        }
      } else {
        least := other;
      }
    }
  }

  /** The one increasing enumeration of a finite set of keys. */
  ghost function Sorted(s: set<string>): (ks: seq<string>)
    ensures Increasing(ks)
    ensures |ks| == |s|
    ensures forall k :: k in s <==> k in ks
  {
    if s == {} then [] else
      assert exists least :: least in s && forall x | x in s :: Le(least, x) by {
        var least := LeastExists(s);
      }
      var least :| least in s && forall x | x in s :: Le(least, x);
      var rest := Sorted(s - {least});
      PrependLeast(s, least, rest);
      [least] + rest
  }

  lemma PrependLeast(s: set<string>, least: string, rest: seq<string>)
    requires least in s && (forall x | x in s :: Le(least, x)) && Increasing(rest)
    requires forall k :: k in s - {least} <==> k in rest
    ensures Increasing([least] + rest) && forall k :: k in s <==> k in [least] + rest
  {
    assert forall k :: k in [least] + rest <==> k == least || k in rest;
    assert forall i :: 0 <= i < |rest| ==> rest[i] in rest;
  }

  /** Whatever order the keys were collected in, sorting them gives `Sorted`. */
  lemma {:induction false} SortedIsUnique(ks: seq<string>, ls: seq<string>)
    requires Increasing(ks) && Increasing(ls)
    requires forall k :: k in ks <==> k in ls
    ensures ks == ls
  {
    assert ks == [] || ks[0] in ks;
    assert ls == [] || ls[0] in ls;
    if ks != [] {
      var i :| 0 <= i < |ls| && ls[i] == ks[0];
      var j :| 0 <= j < |ks| && ks[j] == ls[0];
      if i != 0 && j != 0 {
        LeAntisymmetric(ks[0], ls[0]);
      }
      assert ks[0] == ls[0];
      TailElements(ks);
      TailElements(ls);
      SortedIsUnique(ks[1..], ls[1..]);
    }
  }

  lemma TailElements(ks: seq<string>)
    requires Increasing(ks) && ks != []
    ensures forall k :: k in ks[1..] <==> k in ks && k != ks[0]
  {
    forall k | k in ks && k != ks[0] ensures k in ks[1..] {
      var i :| 0 <= i < |ks| && ks[i] == k;
      assert ks[1..][i - 1] == k;
    }
  }

  /** `sort.Strings`: the library's only promise is a sorted permutation; distinct
      keys then leave no choice. */
  method SortStrings(keys: seq<string>) returns (ks: seq<string>)
    requires forall i, j :: 0 <= i < j < |keys| ==> keys[i] != keys[j]
    ensures ks == Sorted(set k | k in keys)
  {
    ks := [];
    var i := 0;
    while i < |keys|
      invariant 0 <= i <= |keys|
      invariant Increasing(ks)
      invariant forall k :: k in ks <==> k in keys[..i]
    {
      var key := keys[i];
      var p := 0;
      while p < |ks| && Le(ks[p], key)
        invariant 0 <= p <= |ks|
        invariant forall q :: 0 <= q < p ==> Le(ks[q], key)
      {
        p := p + 1;
      }
      InsertKeepsOrder(ks, key, p);
      ks := ks[..p] + [key] + ks[p..];
      assert keys[..i + 1] == keys[..i] + [key];
      i := i + 1;
    }
    assert keys[..|keys|] == keys;
    SortedIsUnique(ks, Sorted(set k | k in keys));
  }

  lemma InsertKeepsOrder(ks: seq<string>, key: string, p: nat)
    requires Increasing(ks) && key !in ks && p <= |ks|
    requires forall q :: 0 <= q < p ==> Le(ks[q], key)
    requires p < |ks| ==> !Le(ks[p], key)
    ensures Increasing(ks[..p] + [key] + ks[p..])
    ensures forall k :: k in ks[..p] + [key] + ks[p..] <==> k == key || k in ks
  {
    if p < |ks| { LeTotal(ks[p], key); }
    forall q | p < q < |ks| ensures Lt(key, ks[q]) {
      LtTransitive(key, ks[p], ks[q]);
    }
    assert ks == ks[..p] + ks[p..];
  }
}
