/**
 * The count reconciler of `addSummaryLogs`: the category list sizes are folded
 * into the three totals of the plan summary and compared with the declared
 * numbers, in the order add, change, destroy, stopping at the first mismatch.
 */
module Reconciler {
  import opened Wrappers
  import opened Plan
  import opened Classifier

  /** The keys of `resultCount` (and of `operationType`). */
  datatype Bucket = ToAdd | ToChange | ToDestroy

  /** The key order of `resultCount`: buckets are compared in this order. */
  const Buckets: seq<Bucket> := [ToAdd, ToChange, ToDestroy]

  /** Position of a bucket in `Buckets`. */
  function Rank(b: Bucket): (k: nat)
    ensures k < |Buckets| && Buckets[k] == b
  {
    match b
    case ToAdd => 0
    case ToChange => 1
    case ToDestroy => 2
  }

  /** The categories that count towards a bucket (`operationType`). */
  function Contributors(b: Bucket): seq<Operation> {
    match b
    case ToAdd => [Create, Replace]
    case ToChange => [Update]
    case ToDestroy => [Replace, Destroy]
  }

  /** The declared number for a bucket (`planResultLog[k]` read as a number). */
  function Declared(d: Declaration, b: Bucket): nat {
    match b
    case ToAdd => d.toAdd
    case ToChange => d.toChange
    case ToDestroy => d.toDestroy
  }

  /** The sum of the list sizes of the categories in `ops` that contribute to `b`. */
  function Total(logs: ResourceLogs, ops: seq<Operation>, b: Bucket): nat
    requires Complete(logs)
  {
    if ops == [] then 0
    else
      var op := ops[|ops| - 1];
      Total(logs, ops[..|ops| - 1], b) + (if op in Contributors(b) then |logs[op]| else 0)
  }

  /** One more category adds its size to the buckets it contributes to. */
  lemma TotalStep(logs: ResourceLogs, ops: seq<Operation>, i: nat, b: Bucket)
    requires Complete(logs) && i < |ops|
    ensures Total(logs, ops[..i + 1], b) ==
            Total(logs, ops[..i], b) + (if ops[i] in Contributors(b) then |logs[ops[i]]| else 0)
  {
    assert ops[..i + 1][..i] == ops[..i];
  }

  /** The sum over all four categories, one term per category in key order. */
  lemma TotalOfAll(logs: ResourceLogs, b: Bucket)
    requires Complete(logs)
    ensures Total(logs, Operations, b) ==
      (if Destroy in Contributors(b) then |logs[Destroy]| else 0) +
      (if Replace in Contributors(b) then |logs[Replace]| else 0) +
      (if Create in Contributors(b) then |logs[Create]| else 0) +
      (if Update in Contributors(b) then |logs[Update]| else 0)
  {
    assert Operations[..0] == [];
    TotalStep(logs, Operations, 0, b);
    TotalStep(logs, Operations, 1, b);
    TotalStep(logs, Operations, 2, b);
    TotalStep(logs, Operations, 3, b);
    assert Operations[..4] == Operations;
  }

  /** The folded totals, written out per bucket: add counts Create and Replace, change counts Update, destroy counts Replace and Destroy. */
  lemma BucketTotals(logs: ResourceLogs)
    requires Complete(logs)
    ensures Total(logs, Operations, ToAdd) == |logs[Create]| + |logs[Replace]|
    ensures Total(logs, Operations, ToChange) == |logs[Update]|
    ensures Total(logs, Operations, ToDestroy) == |logs[Replace]| + |logs[Destroy]|
  {
    TotalOfAll(logs, ToAdd);
    TotalOfAll(logs, ToChange);
    TotalOfAll(logs, ToDestroy);
  }

  /** The classified lists agree with the declaration. */
  predicate Validated(logs: ResourceLogs, d: Declaration)
    requires Complete(logs)
  {
    forall b: Bucket :: Total(logs, Operations, b) == Declared(d, b)
  }

  /** Agreement means exactly the three equations of the plan summary. */
  lemma ValidatedMeans(logs: ResourceLogs, d: Declaration)
    requires Complete(logs)
    ensures Validated(logs, d) <==>
      |logs[Create]| + |logs[Replace]| == d.toAdd &&
      |logs[Update]| == d.toChange &&
      |logs[Replace]| + |logs[Destroy]| == d.toDestroy
  {
    BucketTotals(logs);
    if |logs[Create]| + |logs[Replace]| == d.toAdd &&
       |logs[Update]| == d.toChange &&
       |logs[Replace]| + |logs[Destroy]| == d.toDestroy {
      forall b: Bucket
        ensures Total(logs, Operations, b) == Declared(d, b)
      {
      }
    }
  }

  /** The category lists, once validated, account for every declared change; a replacement counts twice. */
  lemma ValidatedAccounts(logs: ResourceLogs, d: Declaration)
    requires Complete(logs) && Validated(logs, d)
    ensures |logs[Destroy]| + |logs[Replace]| + |logs[Create]| + |logs[Update]| + |logs[Replace]|
            == d.toAdd + d.toChange + d.toDestroy
    ensures |logs[Replace]| <= d.toAdd && |logs[Replace]| <= d.toDestroy
  {
    ValidatedMeans(logs, d);
  }

  /**
   * The callback applied to one entry of `result`: the category's size is
   * added to every bucket whose contributors include the category.
   */
  method AddCategory(counts: map<Bucket, nat>, op: Operation, size: nat) returns (counts': map<Bucket, nat>)
    requires forall b: Bucket :: b in counts
    ensures forall b: Bucket :: b in counts'
    ensures forall b: Bucket :: counts'[b] == counts[b] + (if op in Contributors(b) then size else 0)
  {
    counts' := counts;
    for j := 0 to |Buckets|
      invariant forall b: Bucket :: b in counts'
      invariant forall b: Bucket :: Rank(b) < j ==> counts'[b] == counts[b] + (if op in Contributors(b) then size else 0)
      invariant forall b: Bucket :: Rank(b) >= j ==> counts'[b] == counts[b]
    {
      var b := Buckets[j];
      assert Rank(b) == j;
      if op in Contributors(b) {
        counts' := counts'[b := counts'[b] + size];
      }
    }
  }

  /**
   * The fold of `Object.entries(result)` into `resultCount`: for each
   * category, in key order, its size is added to every bucket it contributes to.
   */
  method CountBuckets(logs: ResourceLogs) returns (counts: map<Bucket, nat>)
    requires Complete(logs)
    ensures forall b: Bucket :: b in counts && counts[b] == Total(logs, Operations, b)
  {
    counts := map[ToAdd := 0, ToChange := 0, ToDestroy := 0];
    forall b: Bucket
      ensures b in counts && counts[b] == Total(logs, Operations[..0], b)
    {
      assert Operations[..0] == [];
      match b
      case ToAdd =>
      case ToChange =>
      case ToDestroy =>
    }
    for i := 0 to |Operations|
      invariant forall b: Bucket :: b in counts && counts[b] == Total(logs, Operations[..i], b)
    {
      var op := Operations[i];
      forall b: Bucket
        ensures Total(logs, Operations[..i + 1], b) ==
                Total(logs, Operations[..i], b) + (if op in Contributors(b) then |logs[op]| else 0)
      {
        TotalStep(logs, Operations, i, b);
      }
      counts := AddCategory(counts, op, |logs[op]|);
    }
    assert Operations[..|Operations|] == Operations;
  }

  /**
   * The comparison loop over `resultCount`: the first bucket, in the order
   * add, change, destroy, whose count differs from the declared number, or
   * `None` when all agree.
   */
  method FirstMismatch(counts: map<Bucket, nat>, d: Declaration) returns (m: Option<Bucket>)
    requires forall b: Bucket :: b in counts
    ensures m.None? <==> forall b: Bucket :: counts[b] == Declared(d, b)
    ensures m.Some? ==> counts[m.value] != Declared(d, m.value)
    ensures m.Some? ==> forall b: Bucket :: Rank(b) < Rank(m.value) ==> counts[b] == Declared(d, b)
  {
    for j := 0 to |Buckets|
      invariant forall b: Bucket :: Rank(b) < j ==> counts[b] == Declared(d, b)
    {
      var b := Buckets[j];
      assert Rank(b) == j;
      if counts[b] != Declared(d, b) {
        return Some(b);
      }
    }
    return None;
  }
}
