/** The scored-sample record `PathLoss` (datautils/path_loss.py): a dataclass
    declared with `order=True` whose first field, `sort_index`, is not a
    constructor parameter but is derived from `loss` after construction. */
module PathLosses {

  /** What the data loader yields as a sample's path. */
  type Path = string

  /** The record's fields in declaration order; the generated comparison
      methods compare these three as a tuple. */
  datatype PathLoss = PathLoss(sortIndex: real, path: Path, loss: real)

  /** True of every record the dataclass constructor builds. */
  predicate WellFormed(p: PathLoss) {
    p.sortIndex == p.loss
  }

  /** `PathLoss(path, loss)`: `__init__` takes only path and loss, and
      `__post_init__` copies loss into sort_index. */
  function Make(path: Path, loss: real): (r: PathLoss)
    ensures WellFormed(r)
    ensures r.path == path && r.loss == loss
  {
    PathLoss(loss, path, loss)
  }

  /** Every well-formed record is the one `Make` builds from its path and
      loss: sort_index carries no information of its own. */
  lemma WellFormedIsMade(p: PathLoss)
    requires WellFormed(p)
    ensures p == Make(p.path, p.loss)
  {
  }

  /** Two constructed records are equal exactly when their path and loss are. */
  lemma MakeEqualIff(path1: Path, loss1: real, path2: Path, loss2: real)
    ensures Make(path1, loss1) == Make(path2, loss2) <==> path1 == path2 && loss1 == loss2
  {
  }

  /** Python's `str.__lt__`: lexicographic by code point, a proper prefix first. */
  predicate StrLess(a: string, b: string)
    decreases |a|
  {
    if a == [] then b != []
    else if b == [] then false
    else if a[0] != b[0] then a[0] < b[0]
    else StrLess(a[1..], b[1..])
  }

  /** The `__lt__` that `order=True` generates: the tuples
      (sort_index, path, loss) compared lexicographically. */
  predicate Less(a: PathLoss, b: PathLoss) {
    a.sortIndex < b.sortIndex
    || (a.sortIndex == b.sortIndex
        && (StrLess(a.path, b.path) || (a.path == b.path && a.loss < b.loss)))
  }

  /** The generated `__le__`: less, or equal as tuples. */
  predicate LessEq(a: PathLoss, b: PathLoss) {
    Less(a, b) || a == b
  }

  lemma {:induction false} StrLessIrreflexive(a: string)
    ensures !StrLess(a, a)
    decreases |a|
  {
    if a != [] {
      StrLessIrreflexive(a[1..]);
    }
  }

  lemma {:induction false} StrLessTransitive(a: string, b: string, c: string)
    requires StrLess(a, b) && StrLess(b, c)
    ensures StrLess(a, c)
    decreases |a|
  {
    if a != [] && b != [] && c != [] && a[0] == b[0] && b[0] == c[0] {
      StrLessTransitive(a[1..], b[1..], c[1..]);
    }
  }

  lemma {:induction false} StrLessTrichotomy(a: string, b: string)
    ensures a == b || StrLess(a, b) || StrLess(b, a)
    ensures !(StrLess(a, b) && StrLess(b, a))
    decreases |a|
  {
    if a != [] && b != [] && a[0] == b[0] {
      StrLessTrichotomy(a[1..], b[1..]);
      if a[1..] == b[1..] {
        assert a == [a[0]] + a[1..] && b == [b[0]] + b[1..];
      }
    }
  }

  /** The generated ordering is a strict total order on records. */
  lemma LessIsStrictTotalOrder(a: PathLoss, b: PathLoss, c: PathLoss)
    ensures !Less(a, a)
    ensures Less(a, b) ==> !Less(b, a)
    ensures Less(a, b) && Less(b, c) ==> Less(a, c)
    ensures a == b || Less(a, b) || Less(b, a)
  {
    StrLessIrreflexive(a.path);
    StrLessTrichotomy(a.path, b.path);
    StrLessTrichotomy(b.path, c.path);
    StrLessTrichotomy(a.path, c.path);
    if StrLess(a.path, b.path) && StrLess(b.path, c.path) {
      StrLessTransitive(a.path, b.path, c.path);
    }
  }

  /** Because sort_index is compared first, a record with a smaller loss
      sorts before one with a larger loss, whatever their paths. */
  lemma SmallerLossSortsFirst(a: PathLoss, b: PathLoss)
    requires WellFormed(a) && WellFormed(b)
    requires a.loss < b.loss
    ensures Less(a, b) && !Less(b, a)
  {
  }

  /** Records with equal loss are ordered by path, and only then by loss. */
  lemma EqualLossOrderedByPath(a: PathLoss, b: PathLoss)
    requires WellFormed(a) && WellFormed(b)
    requires a.loss == b.loss
    ensures Less(a, b) <==> StrLess(a.path, b.path)
    ensures LessEq(a, b) <==> StrLess(a.path, b.path) || a.path == b.path
  {
  }

  /** The generated `__eq__` compares all three fields, but on constructed
      records it reduces to comparing path and loss. */
  lemma EqualIffPathAndLoss(a: PathLoss, b: PathLoss)
    requires WellFormed(a) && WellFormed(b)
    ensures a == b <==> a.path == b.path && a.loss == b.loss
  {
  }

  /** `<=` is total, so `sorted` can order any list of records. */
  lemma LessEqTotal(a: PathLoss, b: PathLoss)
    ensures LessEq(a, b) || LessEq(b, a)
    ensures LessEq(a, b) && LessEq(b, a) ==> a == b
  {
    LessIsStrictTotalOrder(a, b, a);
  }
}
