/**
  The list endpoint end to end: fetch the caller's records (optionally within
  an inclusive date range), total them by type, bucket them by date and order
  the buckets newest first. The reply carries the ordered buckets and the three
  totals.
 */
module TransactionList {
  import opened Ledger
  import opened RangeFilter
  import opened Totals
  import opened Grouping
  import opened GroupOrder

  /** The reply payload. */
  datatype ListResult = ListResult(
    listGroup: seq<Group>,
    totalIncome: int,
    totalExpense: int,
    remainingBalance: int)

  function GetList(stored: seq<Transaction>, owner: UserId,
                   startDate: Option<Timestamp>, endDate: Option<Timestamp>): (r: ListResult)
    ensures r.totalIncome == TotalOf(Fetch(stored, owner, startDate, endDate), Income)
    ensures r.totalExpense == TotalOf(Fetch(stored, owner, startDate, endDate), Expense)
    ensures r.remainingBalance == r.totalIncome - r.totalExpense
    ensures StrictlyNewestDateFirst(r.listGroup)
    ensures multiset(Flatten(r.listGroup)) == multiset(Fetch(stored, owner, startDate, endDate))
  {
    var fetched := Fetch(stored, owner, startDate, endDate);
    var totals := Aggregate(fetched);
    var buckets := GroupByDate(fetched);
    var ordered := SortGroups(buckets);
    FlattenPermutation(ordered, buckets);
    ListResult(ordered, totals.totalIncome, totals.totalExpense, totals.remainingBalance)
  }

  /** Every listed record belongs to the caller and, when both bounds are given, lies inside them. */
  lemma ResultOwnedAndInRange(stored: seq<Transaction>, owner: UserId,
                              startDate: Option<Timestamp>, endDate: Option<Timestamp>)
    ensures var gs := GetList(stored, owner, startDate, endDate).listGroup;
            forall i, t | 0 <= i < |gs| && t in gs[i].items ::
              t in stored && t.createdBy == owner && InRange(t, startDate, endDate)
  {
    var fetched := Fetch(stored, owner, startDate, endDate);
    var gs := GetList(stored, owner, startDate, endDate).listGroup;
    assert multiset(Flatten(gs)) == multiset(fetched);
    forall i, t | 0 <= i < |gs| && t in gs[i].items
      ensures t in fetched
    {
      InFlatten(gs, i, t);
      assert t in multiset(Flatten(gs));
    }
  }

  /**
    Each listed bucket is non-empty and holds exactly the fetched records of
    its date, sorted newest-created-first with same-instant records in fetch
    order.
   */
  lemma BucketIsDateGroup(stored: seq<Transaction>, owner: UserId,
                          startDate: Option<Timestamp>, endDate: Option<Timestamp>)
    ensures var gs := GetList(stored, owner, startDate, endDate).listGroup;
            forall i | 0 <= i < |gs| ::
              && |gs[i].items| > 0
              && (forall t | t in gs[i].items :: t.date == gs[i].date)
              && StableNewestFirst(gs[i].items, Select(Fetch(stored, owner, startDate, endDate), OnDate(gs[i].date)))
  {
    var fetched := Fetch(stored, owner, startDate, endDate);
    var buckets := GroupByDate(fetched);
    var gs := GetList(stored, owner, startDate, endDate).listGroup;
    forall i | 0 <= i < |gs|
      ensures |gs[i].items| > 0
      ensures forall t | t in gs[i].items :: t.date == gs[i].date
      ensures StableNewestFirst(gs[i].items, Select(fetched, OnDate(gs[i].date)))
    {
      var g := gs[i];
      assert g in multiset(SortGroups(buckets));
      var k :| 0 <= k < |buckets| && buckets[k] == g;
      ItemsOfAt(buckets, k);
      GroupContents(fetched, g.date);
      assert GroupOk(buckets[k]);
    }
  }

  /** A bucket is listed for a date exactly when some fetched record has that date. */
  lemma BucketKeys(stored: seq<Transaction>, owner: UserId,
                   startDate: Option<Timestamp>, endDate: Option<Timestamp>, d: Timestamp)
    ensures HasKey(GetList(stored, owner, startDate, endDate).listGroup, d) <==>
            exists t :: t in Fetch(stored, owner, startDate, endDate) && t.date == d
  {
    var fetched := Fetch(stored, owner, startDate, endDate);
    var buckets := GroupByDate(fetched);
    var gs := GetList(stored, owner, startDate, endDate).listGroup;
    assert multiset(gs) == multiset(buckets);
    GroupKeys(fetched, d);
    if HasKey(gs, d) {
      var g :| g in gs && g.date == d;
      assert g in multiset(buckets);
    }
    if HasKey(buckets, d) {
      var g :| g in buckets && g.date == d;
      assert g in multiset(gs);
    }
  }

  /** The totals are those of the listed records: the two stages agree. */
  lemma TotalsMatchBuckets(stored: seq<Transaction>, owner: UserId,
                           startDate: Option<Timestamp>, endDate: Option<Timestamp>)
    ensures var r := GetList(stored, owner, startDate, endDate);
            && r.totalIncome == Aggregate(Flatten(r.listGroup)).totalIncome
            && r.totalExpense == Aggregate(Flatten(r.listGroup)).totalExpense
  {
    var r := GetList(stored, owner, startDate, endDate);
    TotalsPermutation(Flatten(r.listGroup), Fetch(stored, owner, startDate, endDate));
  }

  /** When no stored record of the caller lies in the range, the reply has no buckets and zero totals. */
  lemma NoRecordsEmptyReply(stored: seq<Transaction>, owner: UserId,
                            startDate: Option<Timestamp>, endDate: Option<Timestamp>)
    requires forall t | t in stored :: t.createdBy != owner || !InRange(t, startDate, endDate)
    ensures GetList(stored, owner, startDate, endDate) == ListResult([], 0, 0, 0)
  {
  }

  /**
    Listing `[a, b]` and `[b + 1, c]` separately lists the records of `[a, c]`
    once each, and the totals of the two parts add up to the whole.
   */
  lemma SplitRangeList(stored: seq<Transaction>, owner: UserId, a: Timestamp, b: Timestamp, c: Timestamp)
    requires a <= b + 1 && b <= c
    ensures var whole := GetList(stored, owner, Some(a), Some(c));
            var low := GetList(stored, owner, Some(a), Some(b));
            var high := GetList(stored, owner, Some(b + 1), Some(c));
            && multiset(Flatten(whole.listGroup)) == multiset(Flatten(low.listGroup)) + multiset(Flatten(high.listGroup))
            && whole.totalIncome == low.totalIncome + high.totalIncome
            && whole.totalExpense == low.totalExpense + high.totalExpense
            && whole.remainingBalance == low.remainingBalance + high.remainingBalance
  {
    var fw := Fetch(stored, owner, Some(a), Some(c));
    var fl := Fetch(stored, owner, Some(a), Some(b));
    var fh := Fetch(stored, owner, Some(b + 1), Some(c));
    SplitRange(stored, owner, a, b, c);
    TotalsAppend(fl, fh);
    TotalsPermutation(fw, fl + fh);
  }

  /**
    Worked example: an income of 100 on day 1 and an expense of 40 on day 2,
    both owned by user 7 and listed without a range, give the day-2 bucket
    first and a balance of 60.
   */
  const Salary := Transaction(100, "salary", 1, 1, Income, 7, 10)
  const Lunch := Transaction(40, "lunch", 2, 2, Expense, 7, 11)

  lemma TwoDaysExample()
    ensures GetList([Salary, Lunch], 7, None, None) ==
            ListResult([Group(2, [Lunch]), Group(1, [Salary])], 100, 40, 60)
  {
    var stored := [Salary, Lunch];
    UnfilteredKeepsAll(stored, 7, None, None);
    ExampleBuckets();
    ExampleTotals();
  }

  /** The example's buckets, ordered newest date first. */
  lemma ExampleBuckets()
    ensures SortGroups(GroupByDate([Salary, Lunch])) == [Group(2, [Lunch]), Group(1, [Salary])]
  {
    ExampleGrouping();
    ExampleOrder();
  }

  /** The example's buckets in first-seen order. */
  lemma ExampleGrouping()
    ensures GroupByDate([Salary, Lunch]) == [Group(1, [Salary]), Group(2, [Lunch])]
  {
    var stored := [Salary, Lunch];
    assert stored[..|stored| - 1] == [Salary] && stored[|stored| - 1] == Lunch;
    assert GroupByDate([Salary]) == [Group(1, [Salary])];
    assert AddToGroups([Group(1, [Salary])], Lunch) == [Group(1, [Salary])] + AddToGroups([], Lunch);
  }

  /** Ordering the example's two buckets puts day 2 first. */
  lemma ExampleOrder()
    ensures SortGroups([Group(1, [Salary]), Group(2, [Lunch])]) == [Group(2, [Lunch]), Group(1, [Salary])]
  {
  }

  /** The example's three figures. */
  lemma ExampleTotals()
    ensures Aggregate([Salary, Lunch]) == Figures(100, 40, 60)
  {
  }
}
