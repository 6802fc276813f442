/** `sorted(pathloss, key=lambda x: x.loss, reverse=True)` as make_batches
    uses it (models/active_learning/pretext_trainer.py, line 178): a stable
    sort by descending loss. Python's sort with reverse=True keeps records
    of equal loss in their original order. */
module LossSort {
  import opened PathLosses

  /** Losses never increase along the list. */
  predicate DescendingByLoss(xs: seq<PathLoss>) {
    forall i, j :: 0 <= i < j < |xs| ==> xs[i].loss >= xs[j].loss
  }

  /** The records of loss v, in list order. */
  function WithLoss(xs: seq<PathLoss>, v: real): (r: seq<PathLoss>)
    ensures |r| <= |xs|
    decreases |xs|
  {
    if xs == [] then []
    else (if xs[0].loss == v then [xs[0]] else []) + WithLoss(xs[1..], v)
  }

  /** Places x after every record whose loss is at least x's. */
  function InsertByLoss(s: seq<PathLoss>, x: PathLoss): (r: seq<PathLoss>)
    ensures |r| == |s| + 1
    decreases |s|
  {
    if s == [] then [x]
    else if s[0].loss < x.loss then [x] + s
    else [s[0]] + InsertByLoss(s[1..], x)
  }

  /** The insertion sort that stands for Python's stable sort. */
  function SortByLossDesc(xs: seq<PathLoss>): (r: seq<PathLoss>)
    ensures |r| == |xs|
    decreases |xs|
  {
    if xs == [] then []
    else InsertByLoss(SortByLossDesc(xs[..|xs| - 1]), xs[|xs| - 1])
  }

  lemma {:induction false} WithLossAppend(a: seq<PathLoss>, b: seq<PathLoss>, v: real)
    ensures WithLoss(a + b, v) == WithLoss(a, v) + WithLoss(b, v)
    decreases |a|
  {
    if a == [] {
      assert a + b == b;
    } else {
      WithLossAppend(a[1..], b, v);
      assert (a + b)[1..] == a[1..] + b;
      assert (a + b)[0] == a[0];
    }
  }

  lemma {:induction false} WithLossNone(xs: seq<PathLoss>, v: real)
    requires forall i :: 0 <= i < |xs| ==> xs[i].loss < v
    ensures WithLoss(xs, v) == []
    decreases |xs|
  {
    if xs != [] {
      WithLossNone(xs[1..], v);
    }
  }

  lemma {:induction false} InsertByLossAddsOne(s: seq<PathLoss>, x: PathLoss)
    ensures multiset(InsertByLoss(s, x)) == multiset(s) + multiset{x}
    decreases |s|
  {
    if s != [] && s[0].loss >= x.loss {
      InsertByLossAddsOne(s[1..], x);
      assert s == [s[0]] + s[1..];
    }
  }

  /** Inserting keeps every loss at or below a common upper bound. */
  lemma {:induction false} InsertByLossBounded(s: seq<PathLoss>, x: PathLoss, top: real)
    requires x.loss <= top
    requires forall i :: 0 <= i < |s| ==> s[i].loss <= top
    ensures forall i :: 0 <= i < |InsertByLoss(s, x)| ==> InsertByLoss(s, x)[i].loss <= top
    decreases |s|
  {
    if s != [] && s[0].loss >= x.loss {
      InsertByLossBounded(s[1..], x, top);
      var r, rest := InsertByLoss(s, x), InsertByLoss(s[1..], x);
      forall i | 0 < i < |r|
        ensures r[i].loss <= top
      {
        assert r[i] == rest[i - 1];
      }
    }
  }

  lemma {:induction false} InsertByLossSorted(s: seq<PathLoss>, x: PathLoss)
    requires DescendingByLoss(s)
    ensures DescendingByLoss(InsertByLoss(s, x))
    decreases |s|
  {
    var r := InsertByLoss(s, x);
    if s == [] {
    } else if s[0].loss < x.loss {
      forall i, j | 0 <= i < j < |r|
        ensures r[i].loss >= r[j].loss
      {
        assert r[j] == s[j - 1];
        if i > 0 {
          assert r[i] == s[i - 1];
        } else {
          assert s[0].loss >= s[j - 1].loss;
        }
      }
    } else {
      var rest := InsertByLoss(s[1..], x);
      InsertByLossSorted(s[1..], x);
      InsertByLossBounded(s[1..], x, s[0].loss);
      forall i, j | 0 <= i < j < |r|
        ensures r[i].loss >= r[j].loss
      {
        assert r[j] == rest[j - 1];
        if i > 0 {
          assert r[i] == rest[i - 1];
          assert rest[i - 1].loss >= rest[j - 1].loss;
        } else {
          assert r[i] == s[0];
          assert rest[j - 1].loss <= s[0].loss;
        }
      }
    }
  }

  /** WithLoss of a list with a given first record. */
  lemma WithLossCons(h: PathLoss, t: seq<PathLoss>, v: real)
    ensures WithLoss([h] + t, v) == (if h.loss == v then [h] else []) + WithLoss(t, v)
  {
    assert ([h] + t)[1..] == t;
  }

  /** When x goes in front, no record of the list has x's loss. */
  lemma InsertFrontStable(s: seq<PathLoss>, x: PathLoss, v: real)
    requires DescendingByLoss(s)
    requires s == [] || s[0].loss < x.loss
    ensures WithLoss(InsertByLoss(s, x), v) == WithLoss(s, v) + WithLoss([x], v)
  {
    WithLossCons(x, [], v);
    assert [x] + [] == [x];
    WithLossCons(x, s, v);
    if s == [] {
      assert InsertByLoss(s, x) == [x] + s;
    } else {
      assert InsertByLoss(s, x) == [x] + s;
      if x.loss == v {
        WithLossNone(s, v);
      }
    }
  }

  /** Inserting x into a sorted list puts it after every record of equal
      loss: per loss value, the order is "old records, then x". */
  lemma {:induction false} InsertByLossStable(s: seq<PathLoss>, x: PathLoss, v: real)
    requires DescendingByLoss(s)
    ensures WithLoss(InsertByLoss(s, x), v) == WithLoss(s, v) + WithLoss([x], v)
    decreases |s|
  {
    if s == [] || s[0].loss < x.loss {
      InsertFrontStable(s, x, v);
    } else {
      var rest := InsertByLoss(s[1..], x);
      InsertByLossStable(s[1..], x, v);
      assert InsertByLoss(s, x) == [s[0]] + rest;
      WithLossCons(s[0], rest, v);
      assert s == [s[0]] + s[1..];
      WithLossCons(s[0], s[1..], v);
    }
  }

  /** The sort is a permutation of its input. */
  lemma {:induction false} SortByLossDescPermutes(xs: seq<PathLoss>)
    ensures multiset(SortByLossDesc(xs)) == multiset(xs)
    decreases |xs|
  {
    if xs != [] {
      var front, x := xs[..|xs| - 1], xs[|xs| - 1];
      SortByLossDescPermutes(front);
      InsertByLossAddsOne(SortByLossDesc(front), x);
      assert xs == front + [x];
    }
  }

  /** Its output descends by loss. */
  lemma {:induction false} SortByLossDescSorted(xs: seq<PathLoss>)
    ensures DescendingByLoss(SortByLossDesc(xs))
    decreases |xs|
  {
    if xs != [] {
      SortByLossDescSorted(xs[..|xs| - 1]);
      InsertByLossSorted(SortByLossDesc(xs[..|xs| - 1]), xs[|xs| - 1]);
    }
  }

  /** Records of equal loss keep their input order. */
  lemma {:induction false} SortByLossDescStable(xs: seq<PathLoss>, v: real)
    ensures WithLoss(SortByLossDesc(xs), v) == WithLoss(xs, v)
    decreases |xs|
  {
    if xs != [] {
      var front, x := xs[..|xs| - 1], xs[|xs| - 1];
      SortByLossDescStable(front, v);
      SortByLossDescSorted(front);
      InsertByLossStable(SortByLossDesc(front), x, v);
      assert xs == front + [x];
      WithLossAppend(front, [x], v);
    }
  }
}
