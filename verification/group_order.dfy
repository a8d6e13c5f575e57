/**
  Stage 4 of the list endpoint: the buckets, taken in first-seen order, are
  sorted by date, newest first. The keys are distinct, so every correct sort
  yields the same sequence; the model sorts by insertion.
 */
module GroupOrder {
  import opened Ledger
  import opened Grouping

  /** Non-increasing by date. */
  predicate NewestDateFirst(gs: seq<Group>) {
    forall i, j | 0 <= i < j < |gs| :: gs[i].date >= gs[j].date
  }

  /** Strictly decreasing by date. */
  predicate StrictlyNewestDateFirst(gs: seq<Group>) {
    forall i, j | 0 <= i < j < |gs| :: gs[i].date > gs[j].date
  }

  /** Place `g` after every newer bucket of a sequence sorted newest-date-first. */
  function InsertGroup(sorted: seq<Group>, g: Group): (r: seq<Group>)
    ensures multiset(r) == multiset(sorted) + multiset{g}
  {
    if |sorted| == 0 then [g]
    else if sorted[0].date > g.date then
      assert sorted == [sorted[0]] + sorted[1..];
      [sorted[0]] + InsertGroup(sorted[1..], g)
    else [g] + sorted
  }

  /** The tail of a sorted sequence of buckets is sorted, strictly if the whole is. */
  lemma {:induction false} TailSorted(gs: seq<Group>)
    requires |gs| > 0 && NewestDateFirst(gs)
    ensures NewestDateFirst(gs[1..])
    ensures StrictlyNewestDateFirst(gs) ==> StrictlyNewestDateFirst(gs[1..])
  {
  }

  /** Every bucket of an insertion result is the inserted one or came from the input. */
  lemma {:induction false} InsertGroupFrom(sorted: seq<Group>, g: Group, h: Group)
    requires h in InsertGroup(sorted, g)
    ensures h == g || h in sorted
  {
    assert h in multiset(InsertGroup(sorted, g));
  }

  /** Insertion keeps the buckets ordered newest date first. */
  lemma {:induction false} InsertGroupSorted(sorted: seq<Group>, g: Group)
    requires NewestDateFirst(sorted)
    ensures NewestDateFirst(InsertGroup(sorted, g))
  {
    if |sorted| > 0 && sorted[0].date > g.date {
      var r := InsertGroup(sorted, g);
      var rest := InsertGroup(sorted[1..], g);
      TailSorted(sorted);
      InsertGroupSorted(sorted[1..], g);
      assert r == [sorted[0]] + rest;
      forall i, j | 0 <= i < j < |r|
        ensures r[i].date >= r[j].date
      {
        if i == 0 {
          InsertGroupFrom(sorted[1..], g, r[j]);
          if r[j] != g {
            var k :| 0 <= k < |sorted[1..]| && sorted[1..][k] == r[j];
            assert sorted[k + 1] == r[j];
          }
        } else {
          assert r[i] == rest[i - 1] && r[j] == rest[j - 1];
        }
      }
    }
  }

  /** Inserting a date not yet present keeps a strict order strict. */
  lemma {:induction false} InsertGroupStrict(sorted: seq<Group>, g: Group)
    requires StrictlyNewestDateFirst(sorted) && !HasKey(sorted, g.date)
    ensures StrictlyNewestDateFirst(InsertGroup(sorted, g))
  {
    if |sorted| == 0 {
    } else if sorted[0].date > g.date {
      var r := InsertGroup(sorted, g);
      var rest := InsertGroup(sorted[1..], g);
      TailSorted(sorted);
      assert !HasKey(sorted[1..], g.date) by {
        forall h | h in sorted[1..]
          ensures h.date != g.date
        {
          assert h in sorted;
        }
      }
      InsertGroupStrict(sorted[1..], g);
      assert r == [sorted[0]] + rest;
      forall i, j | 0 <= i < j < |r|
        ensures r[i].date > r[j].date
      {
        if i == 0 {
          InsertGroupFrom(sorted[1..], g, r[j]);
          if r[j] != g {
            var k :| 0 <= k < |sorted[1..]| && sorted[1..][k] == r[j];
            assert sorted[k + 1] == r[j];
          }
        } else {
          assert r[i] == rest[i - 1] && r[j] == rest[j - 1];
        }
      }
    } else {
      assert sorted[0] in sorted;
    }
  }

  /** The group sorter. */
  function SortGroups(gs: seq<Group>): (r: seq<Group>)
    ensures multiset(r) == multiset(gs)
    ensures NewestDateFirst(r)
    ensures KeysDistinct(gs) ==> StrictlyNewestDateFirst(r)
  {
    if |gs| == 0 then []
    else
      assert gs == [gs[0]] + gs[1..];
      var rest := SortGroups(gs[1..]);
      assert KeysDistinct(gs) ==> !HasKey(rest, gs[0].date) by {
        forall h | h in rest
          ensures h in gs[1..]
        {
          assert h in multiset(rest);
        }
      }
      assert KeysDistinct(gs) ==> KeysDistinct(gs[1..]) by {
        if KeysDistinct(gs) {
          forall i, j | 0 <= i < j < |gs[1..]|
            ensures gs[1..][i].date != gs[1..][j].date
          {
            assert gs[1..][i] == gs[i + 1] && gs[1..][j] == gs[j + 1];
          }
        }
      }
      InsertGroupSorted(rest, gs[0]);
      var r := InsertGroup(rest, gs[0]);
      assert KeysDistinct(gs) ==> StrictlyNewestDateFirst(r) by {
        if KeysDistinct(gs) {
          InsertGroupStrict(rest, gs[0]);
        }
      }
      r
  }
}
