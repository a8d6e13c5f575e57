/**
  Stage 1 of the list endpoint: the database query. The caller's records are
  always selected; an inclusive date bound is added only when BOTH the start
  and the end bound were supplied. The query result is modelled as the stored
  records that satisfy the query predicate, in storage order.
 */
module RangeFilter {
  import opened Ledger

  /** The query predicate built from the caller and the (possibly absent) bounds. */
  function QueryFor(owner: UserId, startDate: Option<Timestamp>, endDate: Option<Timestamp>): (c: Criterion)
    ensures c.OwnedWithin? && c.owner == owner
    ensures c.range.Some? <==> startDate.Some? && endDate.Some?
    ensures c.range.Some? ==> c.range.value.start == startDate.value && c.range.value.end == endDate.value
  {
    if startDate.Some? && endDate.Some? then
      OwnedWithin(owner, Some(DateRange(startDate.value, endDate.value)))
    else
      OwnedWithin(owner, None)
  }

  /** The range bound is applied only when both bounds are present. */
  predicate InRange(t: Transaction, startDate: Option<Timestamp>, endDate: Option<Timestamp>) {
    startDate.Some? && endDate.Some? ==> startDate.value <= t.date <= endDate.value
  }

  /** The records the query returns. */
  function Fetch(stored: seq<Transaction>, owner: UserId,
                 startDate: Option<Timestamp>, endDate: Option<Timestamp>): (r: seq<Transaction>)
    ensures forall t :: t in r <==> t in stored && t.createdBy == owner && InRange(t, startDate, endDate)
    ensures forall t ::
              multiset(r)[t] == if t.createdBy == owner && InRange(t, startDate, endDate) then multiset(stored)[t] else 0
  {
    SelectMembers(stored, QueryFor(owner, startDate, endDate));
    SelectCount(stored, QueryFor(owner, startDate, endDate));
    Select(stored, QueryFor(owner, startDate, endDate))
  }

  /** With a bound missing, the query returns exactly the caller's records, unrestricted by date. */
  lemma PartialRangeIsUnfiltered(stored: seq<Transaction>, owner: UserId,
                                 startDate: Option<Timestamp>, endDate: Option<Timestamp>)
    requires startDate.None? || endDate.None?
    ensures Fetch(stored, owner, startDate, endDate) == Fetch(stored, owner, None, None)
    ensures forall t | t in stored && t.createdBy == owner :: t in Fetch(stored, owner, startDate, endDate)
  {
  }

  /** When every stored record is the caller's and a bound is missing, nothing is dropped. */
  lemma {:induction false} UnfilteredKeepsAll(stored: seq<Transaction>, owner: UserId,
                                              startDate: Option<Timestamp>, endDate: Option<Timestamp>)
    requires startDate.None? || endDate.None?
    requires forall t | t in stored :: t.createdBy == owner
    ensures Fetch(stored, owner, startDate, endDate) == stored
  {
    SelectAll(stored, QueryFor(owner, startDate, endDate));
  }

  /** An inverted range (start after end) matches nothing. */
  lemma InvertedRangeIsEmpty(stored: seq<Transaction>, owner: UserId, start: Timestamp, end: Timestamp)
    requires end < start
    ensures Fetch(stored, owner, Some(start), Some(end)) == []
  {
  }

  /**
    Splitting an inclusive range `[a, c]` at `b` into `[a, b]` and `[b + 1, c]`
    splits the fetched records without overlap or omission.
   */
  lemma SplitRange(stored: seq<Transaction>, owner: UserId, a: Timestamp, b: Timestamp, c: Timestamp)
    requires a <= b + 1 && b <= c
    ensures multiset(Fetch(stored, owner, Some(a), Some(c))) ==
            multiset(Fetch(stored, owner, Some(a), Some(b))) + multiset(Fetch(stored, owner, Some(b + 1), Some(c)))
  {
  }
}
