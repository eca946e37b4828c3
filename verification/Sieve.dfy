/**
 The shape of the candidate filter, for any normalization and any rule about
 what clashes with what: walk the candidates, keep those that are fit and clash
 with nothing known, stop at exactly `limit` kept.
 */
module Sieve {

  /** `norm` cleans a candidate; `fit` judges it alone, `clash` against what is known. */
  datatype Rules<!R, !K(==)> = Rules(norm: R -> K, fit: K -> bool, clash: (K, set<K>) -> bool)

  function SetOf<K>(xs: seq<K>): set<K> {
    set x | x in xs
  }

  predicate Keeps<R, K>(rules: Rules<R, K>, base: set<K>, kept: seq<K>, k: K) {
    rules.fit(k) && !rules.clash(k, base + SetOf(kept))
  }

  function Sift<R, K>(rules: Rules<R, K>, cs: seq<R>, base: set<K>, limit: int, kept: seq<K>): seq<K> {
    if cs == [] then kept
    else
      var k := rules.norm(cs[0]);
      if !Keeps(rules, base, kept, k) then Sift(rules, cs[1..], base, limit, kept)
      else if |kept| + 1 == limit then kept + [k]
      else Sift(rules, cs[1..], base, limit, kept + [k])
  }

  /** One candidate: dropped, the last one taken, or taken with more to come. */
  lemma SiftStep<R, K>(rules: Rules<R, K>, cs: seq<R>, i: nat, base: set<K>, limit: int, kept: seq<K>)
    requires i < |cs|
    ensures var k := rules.norm(cs[i]);
      Sift(rules, cs[i..], base, limit, kept) ==
        if !Keeps(rules, base, kept, k) then Sift(rules, cs[i + 1..], base, limit, kept)
        else if |kept| + 1 == limit then kept + [k]
        else Sift(rules, cs[i + 1..], base, limit, kept + [k])
  {
    assert cs[i..][0] == cs[i] && cs[i..][1..] == cs[i + 1..];
  }

  /** Every kept value is a fit normal form that clashes with no base value and no earlier one. */
  ghost predicate Clean<R, K>(rules: Rules<R, K>, ks: seq<K>, base: set<K>) {
    ks == [] || (Clean(rules, ks[..|ks| - 1], base) && Keeps(rules, base, ks[..|ks| - 1], ks[|ks| - 1]))
  }

  lemma CleanExtends<R, K>(rules: Rules<R, K>, ks: seq<K>, k: K, base: set<K>)
    requires Clean(rules, ks, base) && Keeps(rules, base, ks, k)
    ensures Clean(rules, ks + [k], base)
  {
    assert (ks + [k])[..|ks|] == ks;
  }

  /** Whatever comes in, what comes out is clean, extends what was there and respects a positive limit. */
  lemma {:induction false} SiftFacts<R, K>(rules: Rules<R, K>, cs: seq<R>, base: set<K>, limit: int, kept: seq<K>)
    requires Clean(rules, kept, base)
    ensures var r := Sift(rules, cs, base, limit, kept);
            && Clean(rules, r, base)
            && kept <= r
            && |r| <= |kept| + |cs|
            && (limit > |kept| ==> |r| <= limit)
  {
    if cs != [] {
      var k := rules.norm(cs[0]);
      if !Keeps(rules, base, kept, k) {
        SiftFacts(rules, cs[1..], base, limit, kept);
      } else {
        CleanExtends(rules, kept, k, base);
        if |kept| + 1 != limit {
          SiftFacts(rules, cs[1..], base, limit, kept + [k]);
        }
      }
    }
  }

  /** Nothing is made up: each kept value was there or is a candidate's normal form. */
  lemma {:induction false} SiftFrom<R, K>(rules: Rules<R, K>, cs: seq<R>, base: set<K>, limit: int, kept: seq<K>, k: K)
    requires k in Sift(rules, cs, base, limit, kept) && k !in kept
    ensures exists i :: 0 <= i < |cs| && rules.norm(cs[i]) == k
  {
    var k0 := rules.norm(cs[0]);
    if k0 != k {
      if !Keeps(rules, base, kept, k0) {
        SiftFrom(rules, cs[1..], base, limit, kept, k);
      } else {
        SiftFrom(rules, cs[1..], base, limit, kept + [k0], k);
      }
      var i :| 0 <= i < |cs[1..]| && rules.norm(cs[1..][i]) == k;
      assert cs[i + 1] == cs[1..][i];
    }
  }

  /** Each kept value is fit, and no base or earlier value makes it clash. */
  lemma {:induction false} CleanAt<R, K>(rules: Rules<R, K>, ks: seq<K>, base: set<K>, i: nat)
    requires Clean(rules, ks, base) && i < |ks|
    ensures Keeps(rules, base, ks[..i], ks[i])
  {
    if i < |ks| - 1 {
      CleanAt(rules, ks[..|ks| - 1], base, i);
      assert ks[..|ks| - 1][..i] == ks[..i];
    }
  }

  lemma {:induction false} CleanPrefix<R, K>(rules: Rules<R, K>, ks: seq<K>, n: nat, base: set<K>)
    requires Clean(rules, ks, base) && n <= |ks|
    ensures Clean(rules, ks[..n], base)
    decreases |ks| - n
  {
    if n == |ks| {
      assert ks[..n] == ks;
    } else {
      assert ks[..|ks| - 1][..n] == ks[..n];
      CleanPrefix(rules, ks[..|ks| - 1], n, base);
    }
  }

  /** Knowing more can only make more things clash. */
  ghost predicate Monotone<R, K(!new)>(rules: Rules<R, K>) {
    forall k, a, b :: a <= b && rules.clash(k, a) ==> rules.clash(k, b)
  }

  lemma {:induction false} CleanWithLess<R, K(!new)>(rules: Rules<R, K>, ks: seq<K>, base: set<K>, less: set<K>)
    requires Clean(rules, ks, base) && less <= base && Monotone(rules)
    ensures Clean(rules, ks, less)
  {
    if ks != [] {
      var n := |ks| - 1;
      CleanWithLess(rules, ks[..n], base, less);
      assert less + SetOf(ks[..n]) <= base + SetOf(ks[..n]);
    }
  }

  /** Leaving out a prefix keeps the rest clean. */
  lemma {:induction false} CleanSuffix<R, K(!new)>(rules: Rules<R, K>, ks: seq<K>, n: nat, base: set<K>)
    requires Clean(rules, ks, base) && n <= |ks| && Monotone(rules)
    ensures Clean(rules, ks[n..], base)
    decreases |ks|
  {
    if n < |ks| {
      var m := |ks| - 1;
      CleanSuffix(rules, ks[..m], n, base);
      assert ks[n..][..m - n] == ks[..m][n..];
      assert base + SetOf(ks[..m][n..]) <= base + SetOf(ks[..m]);
    }
  }

  /** Two rounds of sifting, the second knowing the first, are one clean list. */
  lemma {:induction false} CleanJoin<R, K>(rules: Rules<R, K>, xs: seq<K>, ys: seq<K>, base: set<K>)
    requires Clean(rules, xs, base) && Clean(rules, ys, base + SetOf(xs))
    ensures Clean(rules, xs + ys, base)
    decreases |ys|
  {
    if ys == [] {
      assert xs + ys == xs;
    } else {
      var n := |ys| - 1;
      CleanJoin(rules, xs, ys[..n], base);
      assert (xs + ys)[..|xs| + n] == xs + ys[..n] && (xs + ys)[|xs| + n] == ys[n];
      assert base + SetOf(xs) + SetOf(ys[..n]) == base + SetOf(xs + ys[..n]);
    }
  }

  /** The joined list is clean on its own, whatever it was sifted against. */
  lemma CleanGrows<R, K(!new)>(rules: Rules<R, K>, xs: seq<K>, ys: seq<K>, base: set<K>)
    requires Clean(rules, xs, base) && Clean(rules, ys, base + SetOf(xs)) && Monotone(rules)
    ensures Clean(rules, xs + ys, {})
  {
    CleanJoin(rules, xs, ys, base);
    CleanWithLess(rules, xs + ys, base, {});
  }

  /** Candidates that are already a clean list: position by position, `cs` normalizes to `ks`. */
  ghost predicate Spells<R, K>(rules: Rules<R, K>, cs: seq<R>, ks: seq<K>) {
    |cs| == |ks| && forall i :: 0 <= i < |cs| ==> rules.norm(cs[i]) == ks[i]
  }

  /** A clean list goes through unchanged, cut at a positive limit. */
  lemma {:induction false} CleanPasses<R, K>(rules: Rules<R, K>, cs: seq<R>, ks: seq<K>, n: nat, base: set<K>,
                                             limit: int)
    requires Clean(rules, ks, base) && Spells(rules, cs, ks) && n <= |ks| && (limit <= 0 || n < limit)
    ensures Sift(rules, cs[n..], base, limit, ks[..n]) == if 0 < limit < |ks| then ks[..limit] else ks
    decreases |ks| - n
  {
    if n < |ks| {
      CleanAt(rules, ks, base, n);
      assert cs[n..][0] == cs[n] && cs[n..][1..] == cs[n + 1..];
      assert ks[..n] + [ks[n]] == ks[..n + 1];
      if n + 1 != limit {
        CleanPasses(rules, cs, ks, n + 1, base, limit);
      } else {
        assert n + 1 == |ks| ==> ks[..n + 1] == ks;
      }
    } else {
      assert ks[..n] == ks && cs[n..] == [];
    }
  }

  /** Sifting its own result again changes nothing. */
  lemma SiftAgain<R, K>(rules: Rules<R, K>, cs: seq<R>, again: seq<R>, base: set<K>, limit: int)
    requires limit >= 1 && Spells(rules, again, Sift(rules, cs, base, limit, []))
    ensures Sift(rules, again, base, limit, []) == Sift(rules, cs, base, limit, [])
  {
    var once := Sift(rules, cs, base, limit, []);
    SiftFacts(rules, cs, base, limit, []);
    CleanPasses(rules, again, once, 0, base, limit);
    assert again[0..] == again && once[..0] == [];
  }
}
