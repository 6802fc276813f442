/** The acquisition step of PretextTrainer (models/active_learning/pretext_trainer.py,
    `get_new_samples`): rank the softmax rows of the sampled pool by least
    confidence or by entropy, map the ranked row indices back to the samples
    and keep at most 5120 of them. */
module Selector {
  import opened Outcome
  import opened PathLosses
  import opened Environment

  /** `new_samples[:5120]`. */
  const SelectCap: nat := 5120

  function Min(a: int, b: int): int {
    if a <= b then a else b
  }

  /** `row.max()` of one softmax row. */
  function RowMax(row: seq<real>): (m: real)
    requires |row| > 0
    ensures m in row
    ensures forall x :: x in row ==> x <= m
    decreases |row|
  {
    if |row| == 1 then row[0]
    else
      var rest := RowMax(row[1..]);
      assert row == [row[0]] + row[1..];
      if row[0] >= rest then row[0] else rest
  }

  // ---------------------------------------------------------------------
  // argsort

  /** `range(n)` as a list. */
  function Range(n: nat): (r: seq<nat>)
    ensures |r| == n
    ensures forall i :: 0 <= i < n ==> r[i] == i
  {
    if n == 0 then [] else Range(n - 1) + [n - 1]
  }

  /** `idx` lists every row index below n exactly once. */
  predicate IsIndexPermutation(idx: seq<nat>, n: nat) {
    multiset(idx) == multiset(Range(n))
  }

  /** Every entry of `idx` indexes `keys`, and the keys it picks out are
      non-decreasing. */
  predicate SortedBy(keys: seq<real>, idx: seq<nat>) {
    && (forall i :: 0 <= i < |idx| ==> idx[i] < |keys|)
    && (forall i, j :: 0 <= i < j < |idx| ==> keys[idx[i]] <= keys[idx[j]])
  }

  /** Inserts index k after every entry whose key is at most keys[k]. */
  function InsertIndex(keys: seq<real>, s: seq<nat>, k: nat): (r: seq<nat>)
    requires k < |keys|
    ensures |r| == |s| + 1
    decreases |s|
  {
    if s == [] then [k]
    else if s[0] >= |keys| || keys[s[0]] > keys[k] then [k] + s
    else [s[0]] + InsertIndex(keys, s[1..], k)
  }

  /** Inserting adds exactly k to the indices. */
  lemma {:induction false} InsertIndexAddsOne(keys: seq<real>, s: seq<nat>, k: nat)
    requires k < |keys|
    ensures multiset(InsertIndex(keys, s, k)) == multiset(s) + multiset{k}
    decreases |s|
  {
    if s != [] && s[0] < |keys| && keys[s[0]] <= keys[k] {
      InsertIndexAddsOne(keys, s[1..], k);
      assert s == [s[0]] + s[1..];
    }
  }

  /** Inserting keeps every index in range and every key above a common
      lower bound. */
  lemma {:induction false} InsertIndexBounded(keys: seq<real>, s: seq<nat>, k: nat, b: real)
    requires k < |keys| && b <= keys[k]
    requires forall i :: 0 <= i < |s| ==> s[i] < |keys| && b <= keys[s[i]]
    ensures forall i :: 0 <= i < |InsertIndex(keys, s, k)| ==>
      InsertIndex(keys, s, k)[i] < |keys| && b <= keys[InsertIndex(keys, s, k)[i]]
    decreases |s|
  {
    if s != [] && keys[s[0]] <= keys[k] {
      InsertIndexBounded(keys, s[1..], k, b);
      var r, rest := InsertIndex(keys, s, k), InsertIndex(keys, s[1..], k);
      assert r == [s[0]] + rest;
      forall i | 0 < i < |r|
        ensures r[i] < |keys| && b <= keys[r[i]]
      {
        assert r[i] == rest[i - 1];
        assert rest[i - 1] < |keys| && b <= keys[rest[i - 1]];
      }
    }
  }

  /** Inserting into a sorted list keeps it sorted. */
  lemma {:induction false} InsertIndexSorted(keys: seq<real>, s: seq<nat>, k: nat)
    requires k < |keys|
    requires SortedBy(keys, s)
    ensures SortedBy(keys, InsertIndex(keys, s, k))
    decreases |s|
  {
    var r := InsertIndex(keys, s, k);
    if s == [] {
    } else if keys[s[0]] > keys[k] {
      forall i, j | 0 <= i < j < |r|
        ensures keys[r[i]] <= keys[r[j]]
      {
        if i > 0 {
          assert r[i] == s[i - 1] && r[j] == s[j - 1];
        } else {
          assert r[j] == s[j - 1] && keys[s[0]] <= keys[s[j - 1]];
        }
      }
    } else {
      var rest := InsertIndex(keys, s[1..], k);
      InsertIndexSorted(keys, s[1..], k);
      InsertIndexBounded(keys, s[1..], k, keys[s[0]]);
      assert r == [s[0]] + rest;
      forall i, j | 0 <= i < j < |r|
        ensures keys[r[i]] <= keys[r[j]]
      {
        assert r[j] == rest[j - 1];
        if i > 0 {
          assert r[i] == rest[i - 1];
          assert keys[rest[i - 1]] <= keys[rest[j - 1]];
        } else {
          assert r[i] == s[0];
          assert keys[s[0]] <= keys[rest[j - 1]];
        }
      }
    }
  }

  /** The indices 0..n-1 ordered by key; equal keys keep index order. */
  function ArgSortPrefix(keys: seq<real>, n: nat): (r: seq<nat>)
    requires n <= |keys|
    ensures IsIndexPermutation(r, n)
    ensures SortedBy(keys, r)
  {
    if n == 0 then []
    else
      var last: nat := n - 1;
      var prev := ArgSortPrefix(keys, last);
      assert Range(n) == Range(last) + [last];
      InsertIndexSorted(keys, prev, last);
      InsertIndexAddsOne(keys, prev, last);
      InsertIndex(keys, prev, last)
  }

  /** `keys.argsort(axis=0)`. numpy's default sort is not stable; this
      model resolves ties by index, one of the orders numpy may return. */
  function ArgSort(keys: seq<real>): (r: seq<nat>)
    ensures IsIndexPermutation(r, |keys|)
    ensures SortedBy(keys, r)
  {
    ArgSortPrefix(keys, |keys|)
  }

  /** `a[::-1]`. */
  function Reverse<T>(s: seq<T>): (r: seq<T>)
    ensures |r| == |s|
    ensures forall i :: 0 <= i < |s| ==> r[i] == s[|s| - 1 - i]
    ensures multiset(r) == multiset(s)
  {
    if s == [] then []
    else
      assert s == [s[0]] + s[1..];
      Reverse(s[1..]) + [s[0]]
  }

  lemma {:induction false} RangeCountsOnce(n: nat, v: nat)
    ensures multiset(Range(n))[v] == if v < n then 1 else 0
  {
    if n > 0 {
      var last: nat := n - 1;
      RangeCountsOnce(last, v);
      RangeCountsOnce(last, last);
      assert Range(n) == Range(last) + [last];
      assert multiset(Range(n)) == multiset(Range(last)) + multiset{last};
    }
  }

  /** An index permutation has length n, only indices below n, every index
      below n, and no index twice. */
  lemma IndexPermutationFacts(idx: seq<nat>, n: nat)
    requires IsIndexPermutation(idx, n)
    ensures |idx| == n
    ensures forall i :: 0 <= i < |idx| ==> idx[i] < n
    ensures forall v: nat :: v < n ==> v in idx
    ensures forall i, j :: 0 <= i < j < |idx| ==> idx[i] != idx[j]
  {
    assert |idx| == |multiset(idx)| == |multiset(Range(n))| == n;
    forall i | 0 <= i < |idx|
      ensures idx[i] < n
    {
      assert idx[i] in multiset(Range(n));
    }
    forall v: nat | v < n
      ensures v in idx
    {
      assert Range(n)[v] == v;
      assert v in multiset(Range(n));
    }
    forall i, j | 0 <= i < j < |idx|
      ensures idx[i] != idx[j]
    {
      if idx[i] == idx[j] {
        var v := idx[i];
        assert idx == idx[..j] + [idx[j]] + idx[j + 1..];
        assert idx[..j][i] == v;
        assert multiset(idx[..j])[v] >= 1;
        assert multiset(idx)[v] >= 2;
        RangeCountsOnce(n, v);
        assert false;
      }
    }
  }

  // ---------------------------------------------------------------------
  // Scores and ranking

  predicate HasEmptyRow(preds: seq<seq<real>>) {
    exists i :: 0 <= i < |preds| && |preds[i]| == 0
  }

  /** `preds.max(axis=1)`. */
  function RowMaxes(preds: seq<seq<real>>): (r: seq<real>)
    requires !HasEmptyRow(preds)
    ensures |r| == |preds|
    ensures forall i :: 0 <= i < |preds| ==> r[i] == RowMax(preds[i])
  {
    seq(|preds|, i requires 0 <= i < |preds| => RowMax(preds[i]))
  }

  /** `-(np.log(preds) * preds).sum(axis=1)`, row by row through the oracle. */
  function Entropies(entropy: seq<real> -> real, preds: seq<seq<real>>): (r: seq<real>)
    ensures |r| == |preds|
    ensures forall i :: 0 <= i < |preds| ==> r[i] == entropy(preds[i])
  {
    seq(|preds|, i requires 0 <= i < |preds| => entropy(preds[i]))
  }

  /** The `indices` each al_method branch computes (lines 109-129), or the
      exception it raises. A row with no columns makes `max` raise; the
      BOTH branch always ends in `indices[: len(indices)/2]`, whose float
      bound raises TypeError. */
  function RankIndices(m: AlMethod, preds: seq<seq<real>>, entropy: seq<real> -> real): Result<seq<nat>> {
    match m
    case LeastConfidence =>
      if HasEmptyRow(preds) then Err(ValueError("zero-size array to reduction operation maximum which has no identity"))
      else Ok(ArgSort(RowMaxes(preds)))
    case Entropy =>
      Ok(Reverse(ArgSort(Entropies(entropy, preds))))
    case Both =>
      if HasEmptyRow(preds) then Err(ValueError("zero-size array to reduction operation maximum which has no identity"))
      else Err(TypeError("slice indices must be integers or None or have an __index__ method"))
    case OtherAlMethod(name) =>
      Err(ValueError("'" + name + "' method doesn't exist"))
  }

  /** The loop `for item in indices: new_samples.append(samples[item])`:
      the mapped samples, or the IndexError of the first index past the end
      of `samples`. */
  function Gather(idx: seq<nat>, samples: seq<PathLoss>): (r: Result<seq<PathLoss>>)
    ensures r.Ok? <==> forall k :: 0 <= k < |idx| ==> idx[k] < |samples|
    ensures r.Ok? ==> |r.value| == |idx| && forall k :: 0 <= k < |idx| ==> r.value[k] == samples[idx[k]]
    ensures r.Err? ==> r.error == IndexError
    decreases |idx|
  {
    if idx == [] then Ok([])
    else
      var front :- Gather(idx[..|idx| - 1], samples);
      var item := idx[|idx| - 1];
      if item >= |samples| then Err(IndexError) else Ok(front + [samples[item]])
  }

  /** What `get_new_samples(preds, samples)` returns or raises. */
  function NewSamples(m: AlMethod, preds: seq<seq<real>>, entropy: seq<real> -> real,
                      samples: seq<PathLoss>): Result<seq<PathLoss>>
  {
    var idx :- RankIndices(m, preds, entropy);
    var all :- Gather(idx, samples);
    Ok(all[..Min(SelectCap, |all|)])
  }

  /** The loop of lines 131-133 that maps the ranked indices back to the
      samples. */
  method MapBack(indices: seq<nat>, samples: seq<PathLoss>) returns (r: Result<seq<PathLoss>>)
    ensures r == Gather(indices, samples)
  {
    var newSamples: seq<PathLoss> := [];
    for k := 0 to |indices|
      invariant Gather(indices[..k], samples) == Ok(newSamples)
    {
      assert indices[..k + 1][..k] == indices[..k];
      var item := indices[k];
      if item >= |samples| {
        return Err(IndexError);
      }
      newSamples := newSamples + [samples[item]];
    }
    assert indices[..|indices|] == indices;
    return Ok(newSamples);
  }

  /** `get_new_samples`: the ranking, the mapping back, then the cap. */
  method GetNewSamples(m: AlMethod, preds: seq<seq<real>>, entropy: seq<real> -> real,
                       samples: seq<PathLoss>) returns (r: Result<seq<PathLoss>>)
    ensures r == NewSamples(m, preds, entropy, samples)
  {
    var ranked := RankIndices(m, preds, entropy);
    if ranked.Err? {
      return Err(ranked.error);
    }
    var mapped := MapBack(ranked.value, samples);
    if mapped.Err? {
      return Err(mapped.error);
    }
    var newSamples := mapped.value;
    return Ok(newSamples[..Min(SelectCap, |newSamples|)]);
  }

  // ---------------------------------------------------------------------
  // Properties of the selection

  /** Every successful ranking is a permutation of the row indices. */
  lemma RankIsPermutation(m: AlMethod, preds: seq<seq<real>>, entropy: seq<real> -> real)
    requires RankIndices(m, preds, entropy).Ok?
    ensures IsIndexPermutation(RankIndices(m, preds, entropy).value, |preds|)
  {
  }

  /** Least confidence ranks the rows by their maximum, smallest first. */
  lemma LeastConfidenceAscending(preds: seq<seq<real>>, entropy: seq<real> -> real)
    requires !HasEmptyRow(preds)
    ensures RankIndices(LeastConfidence, preds, entropy).Ok?
    ensures var idx := RankIndices(LeastConfidence, preds, entropy).value;
      forall i, j :: 0 <= i < j < |idx| ==> idx[i] < |preds| && idx[j] < |preds| && RowMax(preds[idx[i]]) <= RowMax(preds[idx[j]])
  {
    var keys := RowMaxes(preds);
    var idx := ArgSort(keys);
    forall i, j | 0 <= i < j < |idx|
      ensures idx[i] < |preds| && idx[j] < |preds| && RowMax(preds[idx[i]]) <= RowMax(preds[idx[j]])
    {
      assert keys[idx[i]] <= keys[idx[j]];
    }
  }

  /** Reversing an ascending ranking gives a descending one. */
  lemma ReversedDescending(keys: seq<real>, asc: seq<nat>)
    requires SortedBy(keys, asc)
    ensures var idx := Reverse(asc);
      forall i, j :: 0 <= i < j < |idx| ==> idx[i] < |keys| && idx[j] < |keys| && keys[idx[i]] >= keys[idx[j]]
  {
    var idx := Reverse(asc);
    forall i, j | 0 <= i < j < |idx|
      ensures idx[i] < |keys| && idx[j] < |keys| && keys[idx[i]] >= keys[idx[j]]
    {
      var n := |asc|;
      assert idx[i] == asc[n - 1 - i] && idx[j] == asc[n - 1 - j];
      assert keys[asc[n - 1 - j]] <= keys[asc[n - 1 - i]];
    }
  }

  /** Entropy ranks the rows by their entropy, largest first. */
  lemma EntropyDescending(preds: seq<seq<real>>, entropy: seq<real> -> real)
    ensures RankIndices(Entropy, preds, entropy).Ok?
    ensures var idx := RankIndices(Entropy, preds, entropy).value;
      forall i, j :: 0 <= i < j < |idx| ==> idx[i] < |preds| && idx[j] < |preds| && entropy(preds[idx[i]]) >= entropy(preds[idx[j]])
  {
    var keys := Entropies(entropy, preds);
    ReversedDescending(keys, ArgSort(keys));
  }

  /** The three outcomes of `get_new_samples`: the ranking fails, the
      mapping fails, or the capped mapped list. */
  lemma NewSamplesCases(m: AlMethod, preds: seq<seq<real>>, entropy: seq<real> -> real, samples: seq<PathLoss>)
    ensures var ranked := RankIndices(m, preds, entropy);
      && (ranked.Err? ==> NewSamples(m, preds, entropy, samples) == Err(ranked.error))
      && (ranked.Ok? ==>
            var all := Gather(ranked.value, samples);
            && (all.Err? ==> NewSamples(m, preds, entropy, samples) == Err(all.error))
            && (all.Ok? ==> NewSamples(m, preds, entropy, samples) == Ok(all.value[..Min(SelectCap, |all.value|)])))
  {
  }

  /** A successful selection has min(rows, 5120) elements, the k-th being
      the sample of the k-th ranked row, no row taken twice: a prefix of the
      full ranked permutation. */
  lemma NewSamplesShape(m: AlMethod, preds: seq<seq<real>>, entropy: seq<real> -> real, samples: seq<PathLoss>)
    requires NewSamples(m, preds, entropy, samples).Ok?
    ensures var out := NewSamples(m, preds, entropy, samples).value;
      var idx := RankIndices(m, preds, entropy).value;
      && RankIndices(m, preds, entropy).Ok?
      && |out| == Min(|preds|, SelectCap)
      && (forall k :: 0 <= k < |out| ==> idx[k] < |samples| && out[k] == samples[idx[k]])
      && (forall k, l :: 0 <= k < l < |out| ==> idx[k] != idx[l])
  {
    NewSamplesCases(m, preds, entropy, samples);
    RankIsPermutation(m, preds, entropy);
    CappedGatherShape(RankIndices(m, preds, entropy).value, |preds|, samples);
  }

  /** Picking samples at distinct indices takes no sample more often than
      it occurs. */
  lemma {:induction false} DistinctPicksSubMultiset(idx: seq<nat>, samples: seq<PathLoss>, out: seq<PathLoss>)
    requires |out| == |idx|
    requires forall k :: 0 <= k < |idx| ==> idx[k] < |samples| && out[k] == samples[idx[k]]
    requires forall k, l :: 0 <= k < l < |idx| ==> idx[k] != idx[l]
    ensures multiset(out) <= multiset(samples)
    decreases |samples|
  {
    if idx == [] {
      assert out == [];
    } else {
      assert idx[0] < |samples|;
      var n := |samples| - 1;
      var front := samples[..n];
      assert samples == front + [samples[n]];
      if p :| 0 <= p < |idx| && idx[p] == n {
        var idx', out' := idx[..p] + idx[p + 1..], out[..p] + out[p + 1..];
        forall k | 0 <= k < |idx'|
          ensures idx'[k] < |front| && out'[k] == front[idx'[k]]
        {
          var j := if k < p then k else k + 1;
          assert idx'[k] == idx[j] && out'[k] == out[j];
          assert j != p;
        }
        forall k, l | 0 <= k < l < |idx'|
          ensures idx'[k] != idx'[l]
        {
          var j, i := if k < p then k else k + 1, if l < p then l else l + 1;
          assert idx'[k] == idx[j] && idx'[l] == idx[i];
        }
        DistinctPicksSubMultiset(idx', front, out');
        assert out == out[..p] + [out[p]] + out[p + 1..];
        assert multiset(out) == multiset(out') + multiset{samples[n]};
      } else {
        forall k | 0 <= k < |idx|
          ensures idx[k] < |front| && out[k] == front[idx[k]]
        {
          assert idx[k] != n;
        }
        DistinctPicksSubMultiset(idx, front, out);
      }
    }
  }

  /** A successful selection takes no sample more often than it occurs. */
  lemma NewSamplesSubMultiset(m: AlMethod, preds: seq<seq<real>>, entropy: seq<real> -> real, samples: seq<PathLoss>)
    requires NewSamples(m, preds, entropy, samples).Ok?
    ensures multiset(NewSamples(m, preds, entropy, samples).value) <= multiset(samples)
  {
    NewSamplesShape(m, preds, entropy, samples);
    var out := NewSamples(m, preds, entropy, samples).value;
    var idx := RankIndices(m, preds, entropy).value;
    assert |out| <= |idx| by {
      RankIsPermutation(m, preds, entropy);
      IndexPermutationFacts(idx, |preds|);
    }
    DistinctPicksSubMultiset(idx[..|out|], samples, out);
  }

  lemma CappedGatherShape(idx: seq<nat>, n: nat, samples: seq<PathLoss>)
    requires IsIndexPermutation(idx, n) && Gather(idx, samples).Ok?
    ensures var all := Gather(idx, samples).value;
      var out := all[..Min(SelectCap, |all|)];
      && |out| == Min(n, SelectCap)
      && (forall k :: 0 <= k < |out| ==> idx[k] < |samples| && out[k] == samples[idx[k]])
      && (forall k, l :: 0 <= k < l < |out| ==> idx[k] != idx[l])
  {
    IndexPermutationFacts(idx, n);
    var all := Gather(idx, samples).value;
    var out := all[..Min(SelectCap, |all|)];
    forall k | 0 <= k < |out|
      ensures idx[k] < |samples| && out[k] == samples[idx[k]]
    {
      assert out[k] == all[k];
    }
  }

  /** Mapping a permutation of n row indices back to the samples succeeds
      exactly when there are at least n samples. */
  lemma GatherPermutationOkIff(idx: seq<nat>, n: nat, samples: seq<PathLoss>)
    requires IsIndexPermutation(idx, n)
    ensures Gather(idx, samples).Ok? <==> n <= |samples|
  {
    IndexPermutationFacts(idx, n);
    if n > |samples| {
      var last: nat := n - 1;
      assert last in idx;
      var k :| 0 <= k < |idx| && idx[k] == last;
      assert !(idx[k] < |samples|);
    }
  }

  /** The selection succeeds exactly when the ranking does and there are at
      least as many samples as prediction rows. */
  lemma NewSamplesOkIff(m: AlMethod, preds: seq<seq<real>>, entropy: seq<real> -> real, samples: seq<PathLoss>)
    ensures NewSamples(m, preds, entropy, samples).Ok? <==>
      RankIndices(m, preds, entropy).Ok? && |preds| <= |samples|
  {
    NewSamplesCases(m, preds, entropy, samples);
    var ranked := RankIndices(m, preds, entropy);
    if ranked.Ok? {
      RankIsPermutation(m, preds, entropy);
      GatherPermutationOkIff(ranked.value, |preds|, samples);
    }
  }

  /** An unrecognised al_method raises ValueError naming it and selects
      nothing; BOTH never returns a selection. */
  lemma UnknownMethodRaises(name: string, preds: seq<seq<real>>, entropy: seq<real> -> real, samples: seq<PathLoss>)
    ensures NewSamples(OtherAlMethod(name), preds, entropy, samples) == Err(ValueError("'" + name + "' method doesn't exist"))
    ensures NewSamples(Both, preds, entropy, samples).Err?
  {
  }
}
