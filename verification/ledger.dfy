/**
  The stored transaction records the list endpoint works on, the record-level
  criteria it filters by, and the two sequence operations every later stage is
  built from: selecting the records that meet a criterion and summing amounts.
 */
module Ledger {

  /** An optional value: a query bound that is present, or absent/empty. */
  datatype Option<T> = None | Some(value: T)

  /** Reference to the owning user account. */
  type UserId = int

  /** A point in time (the transaction's `date`, or its `createdAt`). */
  type Timestamp = int

  /** The stored `type` string: `income`, `expense`, or anything else. */
  datatype Kind = Income | Expense | Other

  /** One stored transaction; `category` is an opaque reference. */
  datatype Transaction = Transaction(
    amount: int,
    description: string,
    category: int,
    date: Timestamp,
    kind: Kind,
    createdBy: UserId,
    createdAt: Timestamp)

  /** An inclusive date range `[start, end]`. */
  datatype DateRange = DateRange(start: Timestamp, end: Timestamp)

  /** The record-level predicates the list endpoint filters and buckets by. */
  datatype Criterion =
    | OwnedWithin(owner: UserId, range: Option<DateRange>)
    | OnDate(date: Timestamp)
    | CreatedAt(createdAt: Timestamp)
    | OfKind(kind: Kind)

  predicate Holds(t: Transaction, c: Criterion) {
    match c
    case OwnedWithin(owner, range) =>
      t.createdBy == owner && (range.Some? ==> range.value.start <= t.date <= range.value.end)
    case OnDate(d) => t.date == d
    case CreatedAt(at) => t.createdAt == at
    case OfKind(k) => t.kind == k
  }

  /** The records of `ts` that meet `c`, in their original order. */
  function Select(ts: seq<Transaction>, c: Criterion): (r: seq<Transaction>)
    ensures |r| <= |ts|
  {
    if |ts| == 0 then []
    else if Holds(ts[0], c) then [ts[0]] + Select(ts[1..], c)
    else Select(ts[1..], c)
  }

  /** Sum of the `amount` fields. */
  function SumAmount(ts: seq<Transaction>): int {
    if |ts| == 0 then 0 else ts[0].amount + SumAmount(ts[1..])
  }

  /** Selection distributes over concatenation. */
  lemma {:induction false} SelectAppend(a: seq<Transaction>, b: seq<Transaction>, c: Criterion)
    ensures Select(a + b, c) == Select(a, c) + Select(b, c)
  {
    if |a| == 0 {
      assert a + b == b;
    } else {
      assert (a + b)[1..] == a[1..] + b;
      SelectAppend(a[1..], b, c);
    }
  }

  /** A record is selected exactly when it is present and qualifies. */
  lemma {:induction false} SelectMembers(ts: seq<Transaction>, c: Criterion)
    ensures forall t :: t in Select(ts, c) <==> t in ts && Holds(t, c)
  {
    if |ts| > 0 {
      assert ts == [ts[0]] + ts[1..];
      SelectMembers(ts[1..], c);
    }
  }

  /** Selection keeps every qualifying record as often as it occurs and drops the rest. */
  lemma {:induction false} SelectCount(ts: seq<Transaction>, c: Criterion)
    ensures forall t :: multiset(Select(ts, c))[t] == if Holds(t, c) then multiset(ts)[t] else 0
  {
    if |ts| > 0 {
      assert ts == [ts[0]] + ts[1..];
      SelectCount(ts[1..], c);
    }
  }

  /** Selection removes nothing when every record qualifies. */
  lemma {:induction false} SelectAll(ts: seq<Transaction>, c: Criterion)
    requires forall t | t in ts :: Holds(t, c)
    ensures Select(ts, c) == ts
  {
    if |ts| > 0 {
      SelectAll(ts[1..], c);
    }
  }

  /** Selection keeps nothing when no record qualifies. */
  lemma {:induction false} SelectNone(ts: seq<Transaction>, c: Criterion)
    requires forall t | t in ts :: !Holds(t, c)
    ensures Select(ts, c) == []
  {
    if |ts| > 0 {
      SelectNone(ts[1..], c);
    }
  }

  /**
    Matching the first element of `a` with an equal element `b[i]` of a
    permutation `b` leaves permutations of each other.
   */
  lemma {:induction false} RemoveMatched<T>(a: seq<T>, b: seq<T>, i: nat)
    requires multiset(a) == multiset(b) && |a| > 0 && i < |b| && b[i] == a[0]
    ensures multiset(a[1..]) == multiset(b[..i] + b[i + 1..])
  {
    assert a == [a[0]] + a[1..];
    assert b == b[..i] + [b[i]] + b[i + 1..];
    calc {
      multiset(a[1..]);
      multiset(a) - multiset{a[0]};
      multiset(b) - multiset{b[i]};
      multiset(b[..i]) + multiset(b[i + 1..]);
      multiset(b[..i] + b[i + 1..]);
    }
  }

  /** Sum of amounts distributes over concatenation. */
  lemma {:induction false} SumAppend(a: seq<Transaction>, b: seq<Transaction>)
    ensures SumAmount(a + b) == SumAmount(a) + SumAmount(b)
  {
    if |a| == 0 {
      assert a + b == b;
    } else {
      assert (a + b)[1..] == a[1..] + b;
      SumAppend(a[1..], b);
    }
  }

  /** The sum of amounts does not depend on the order of the records. */
  lemma {:induction false} SumPermutation(a: seq<Transaction>, b: seq<Transaction>)
    requires multiset(a) == multiset(b)
    ensures SumAmount(a) == SumAmount(b)
    decreases |a|
  {
    if |a| == 0 {
      assert |b| == |multiset(b)|;
    } else {
      assert a[0] in multiset(b);
      var i :| 0 <= i < |b| && b[i] == a[0];
      RemoveMatched(a, b, i);
      SumPermutation(a[1..], b[..i] + b[i + 1..]);
      SumRemove(b, i);
    }
  }

  /** Taking one record out of a sequence takes its amount out of the sum. */
  lemma {:induction false} SumRemove(b: seq<Transaction>, i: nat)
    requires i < |b|
    ensures SumAmount(b) == b[i].amount + SumAmount(b[..i] + b[i + 1..])
  {
    assert b == b[..i] + [b[i]] + b[i + 1..];
    SumAppend(b[..i] + [b[i]], b[i + 1..]);
    SumAppend(b[..i], [b[i]]);
    SumAppend(b[..i], b[i + 1..]);
  }
}
