/**
  Stage 3 of the list endpoint: bucket the fetched records by their exact
  `date` value. Buckets are created in first-seen order; each record is pushed
  onto its bucket, which is then re-sorted newest-`createdAt`-first by a stable
  sort, so records created at the same instant keep their fetch order.
 */
module Grouping {
  import opened Ledger

  /** One date bucket: its key and its records. */
  datatype Group = Group(date: Timestamp, items: seq<Transaction>)

  /** Non-increasing by creation time. */
  predicate NewestCreatedFirst(s: seq<Transaction>) {
    forall i, j | 0 <= i < j < |s| :: s[i].createdAt >= s[j].createdAt
  }

  /**
    `out` is what a stable newest-created-first sort makes of `inp`: ordered,
    the same records, and records with equal creation time in input order.
   */
  ghost predicate StableNewestFirst(out: seq<Transaction>, inp: seq<Transaction>) {
    && NewestCreatedFirst(out)
    && multiset(out) == multiset(inp)
    && forall at :: Select(out, CreatedAt(at)) == Select(inp, CreatedAt(at))
  }

  /**
    Push `t` onto a bucket already sorted newest-created-first and stable-sort
    again: `t` lands after every record created at the same instant or later,
    and before the first record created earlier.
   */
  function InsertByCreatedAt(s: seq<Transaction>, t: Transaction): seq<Transaction> {
    if |s| == 0 then [t]
    else if s[0].createdAt >= t.createdAt then [s[0]] + InsertByCreatedAt(s[1..], t)
    else [t] + s
  }

  /** Insertion adds exactly `t` to the bucket. */
  lemma {:induction false} InsertPermutes(s: seq<Transaction>, t: Transaction)
    ensures multiset(InsertByCreatedAt(s, t)) == multiset(s) + multiset{t}
  {
    if |s| > 0 && s[0].createdAt >= t.createdAt {
      assert s == [s[0]] + s[1..];
      InsertPermutes(s[1..], t);
    }
  }

  /** The tail of a sorted bucket is sorted. */
  lemma {:induction false} TailNewestCreatedFirst(s: seq<Transaction>)
    requires |s| > 0 && NewestCreatedFirst(s)
    ensures NewestCreatedFirst(s[1..])
  {
  }

  /** Insertion keeps a bucket sorted newest-created-first. */
  lemma {:induction false} InsertSorted(s: seq<Transaction>, t: Transaction)
    requires NewestCreatedFirst(s)
    ensures NewestCreatedFirst(InsertByCreatedAt(s, t))
  {
    if |s| > 0 && s[0].createdAt >= t.createdAt {
      TailNewestCreatedFirst(s);
      InsertSorted(s[1..], t);
      InsertPermutes(s[1..], t);
      forall u | u in s[1..]
        ensures u.createdAt <= s[0].createdAt
      {
        var k :| 0 <= k < |s[1..]| && s[1..][k] == u;
        assert s[k + 1] == u;
      }
      SortedBehindHead(s[0], InsertByCreatedAt(s[1..], t), s[1..], t);
    } else if |s| > 0 {
      SortedBehindHead(t, s, s, s[0]);
    }
  }

  /**
    Putting `head` in front of a sorted sequence whose records all come from
    `from` or are `extra`, none created after `head`, keeps it sorted.
   */
  lemma {:induction false} SortedBehindHead(head: Transaction, rest: seq<Transaction>, from: seq<Transaction>, extra: Transaction)
    requires NewestCreatedFirst(rest)
    requires multiset(rest) <= multiset(from) + multiset{extra}
    requires forall u | u in from :: u.createdAt <= head.createdAt
    requires extra.createdAt <= head.createdAt
    ensures NewestCreatedFirst([head] + rest)
  {
    var r := [head] + rest;
    forall i, j | 0 <= i < j < |r|
      ensures r[i].createdAt >= r[j].createdAt
    {
      if i == 0 {
        assert r[j] == rest[j - 1];
        assert r[j] in multiset(rest);
      } else {
        assert r[i] == rest[i - 1] && r[j] == rest[j - 1];
      }
    }
  }

  /** Insertion keeps the relative order of records created at the same instant, `t` last. */
  lemma {:induction false} InsertKeepsTies(s: seq<Transaction>, t: Transaction, at: Timestamp)
    requires NewestCreatedFirst(s)
    ensures Select(InsertByCreatedAt(s, t), CreatedAt(at)) == Select(s, CreatedAt(at)) + Select([t], CreatedAt(at))
  {
    if |s| == 0 {
      assert Select(s, CreatedAt(at)) == [];
    } else if s[0].createdAt >= t.createdAt {
      TailNewestCreatedFirst(s);
      InsertKeepsTies(s[1..], t, at);
      TiesBehindHead(s, t, CreatedAt(at));
    } else {
      InsertBeforeOlder(s, t, at);
    }
  }

  /** The step case of `InsertKeepsTies`: a record kept in front stays in front. */
  lemma {:induction false} TiesBehindHead(s: seq<Transaction>, t: Transaction, c: Criterion)
    requires |s| > 0 && s[0].createdAt >= t.createdAt
    requires Select(InsertByCreatedAt(s[1..], t), c) == Select(s[1..], c) + Select([t], c)
    ensures Select(InsertByCreatedAt(s, t), c) == Select(s, c) + Select([t], c)
  {
  }

  /** A record newer than the whole sorted bucket goes first without disturbing ties. */
  lemma {:induction false} InsertBeforeOlder(s: seq<Transaction>, t: Transaction, at: Timestamp)
    requires NewestCreatedFirst(s) && |s| > 0 && s[0].createdAt < t.createdAt
    ensures Select([t] + s, CreatedAt(at)) == Select(s, CreatedAt(at)) + Select([t], CreatedAt(at))
  {
    var c := CreatedAt(at);
    SelectAppend([t], s, c);
    if at == t.createdAt {
      forall u | u in s
        ensures !Holds(u, c)
      {
        var k :| 0 <= k < |s| && s[k] == u;
        assert s[0].createdAt >= s[k].createdAt;
      }
      SelectNone(s, c);
      assert Select([t], c) + [] == [] + Select([t], c);
    } else {
      assert Select([t], c) == [];
      assert [] + Select(s, c) == Select(s, c) + [];
    }
  }

  /** Inserting a new record into a stably sorted bucket sorts the extended input. */
  lemma {:induction false} InsertExtendsStable(out: seq<Transaction>, inp: seq<Transaction>, t: Transaction)
    requires StableNewestFirst(out, inp)
    ensures StableNewestFirst(InsertByCreatedAt(out, t), inp + [t])
  {
    forall at
      ensures Select(InsertByCreatedAt(out, t), CreatedAt(at)) == Select(inp + [t], CreatedAt(at))
    {
      InsertKeepsTies(out, t, at);
      SelectAppend(inp, [t], CreatedAt(at));
    }
    InsertSorted(out, t);
    InsertPermutes(out, t);
  }

  /** A bucket is non-empty, sorted, and holds only records of its own date. */
  predicate GroupOk(g: Group) {
    && |g.items| > 0
    && NewestCreatedFirst(g.items)
    && forall t | t in g.items :: t.date == g.date
  }

  predicate KeysDistinct(gs: seq<Group>) {
    forall i, j | 0 <= i < j < |gs| :: gs[i].date != gs[j].date
  }

  predicate WellFormed(gs: seq<Group>) {
    KeysDistinct(gs) && forall i | 0 <= i < |gs| :: GroupOk(gs[i])
  }

  predicate HasKey(gs: seq<Group>, d: Timestamp) {
    exists g :: g in gs && g.date == d
  }

  /** The records of the bucket keyed `d`; empty when there is none. */
  function ItemsOf(gs: seq<Group>, d: Timestamp): seq<Transaction> {
    if |gs| == 0 then []
    else if gs[0].date == d then gs[0].items
    else ItemsOf(gs[1..], d)
  }

  /** All buckets' records, bucket after bucket. */
  function Flatten(gs: seq<Group>): seq<Transaction> {
    if |gs| == 0 then [] else gs[0].items + Flatten(gs[1..])
  }

  /** Flattening distributes over concatenation. */
  lemma {:induction false} FlattenAppend(a: seq<Group>, b: seq<Group>)
    ensures Flatten(a + b) == Flatten(a) + Flatten(b)
  {
    if |a| == 0 {
      assert a + b == b;
    } else {
      assert (a + b)[1..] == a[1..] + b;
      FlattenAppend(a[1..], b);
    }
  }

  /** Reordering the buckets does not change which records they hold. */
  lemma {:induction false} FlattenPermutation(a: seq<Group>, b: seq<Group>)
    requires multiset(a) == multiset(b)
    ensures multiset(Flatten(a)) == multiset(Flatten(b))
    decreases |a|
  {
    if |a| == 0 {
      assert |b| == |multiset(b)|;
    } else {
      assert a[0] in multiset(b);
      var i :| 0 <= i < |b| && b[i] == a[0];
      RemoveMatched(a, b, i);
      FlattenPermutation(a[1..], b[..i] + b[i + 1..]);
      FlattenRemove(b, i);
    }
  }

  /** Taking one bucket out of a sequence takes its records out of the flattening. */
  lemma {:induction false} FlattenRemove(b: seq<Group>, i: nat)
    requires i < |b|
    ensures multiset(Flatten(b)) == multiset(b[i].items) + multiset(Flatten(b[..i] + b[i + 1..]))
  {
    assert b == b[..i] + [b[i]] + b[i + 1..];
    FlattenAppend(b[..i] + [b[i]], b[i + 1..]);
    FlattenAppend(b[..i], [b[i]]);
    FlattenAppend(b[..i], b[i + 1..]);
    assert Flatten([b[i]]) == b[i].items;
  }

  /** A record of some bucket is a record of the flattened buckets. */
  lemma {:induction false} InFlatten(gs: seq<Group>, i: nat, t: Transaction)
    requires i < |gs| && t in gs[i].items
    ensures t in Flatten(gs)
  {
    if i > 0 {
      InFlatten(gs[1..], i - 1, t);
    }
  }

  /** File one record under its date, opening a new bucket at the end if the date is new. */
  function AddToGroups(gs: seq<Group>, t: Transaction): seq<Group> {
    if |gs| == 0 then [Group(t.date, [t])]
    else if gs[0].date == t.date then [gs[0].(items := InsertByCreatedAt(gs[0].items, t))] + gs[1..]
    else [gs[0]] + AddToGroups(gs[1..], t)
  }

  /** Filing `t` changes only the bucket of `t`'s date, by inserting `t` into it. */
  lemma {:induction false} AddItemsOf(gs: seq<Group>, t: Transaction, d: Timestamp)
    ensures ItemsOf(AddToGroups(gs, t), d) ==
            if d == t.date then InsertByCreatedAt(ItemsOf(gs, d), t) else ItemsOf(gs, d)
  {
    if |gs| > 0 && gs[0].date != t.date {
      AddItemsOf(gs[1..], t, d);
    }
  }

  /** Filing `t` adds `t`'s date to the keys and no other. */
  lemma {:induction false} AddHasKey(gs: seq<Group>, t: Transaction, d: Timestamp)
    ensures HasKey(AddToGroups(gs, t), d) <==> HasKey(gs, d) || d == t.date
  {
    var r := AddToGroups(gs, t);
    if |gs| == 0 {
      assert r[0] in r;
    } else {
      assert gs == [gs[0]] + gs[1..];
      if gs[0].date == t.date {
        assert r == [r[0]] + gs[1..];
        assert r[0] in r;
        assert gs[0] in gs;
      } else {
        AddHasKey(gs[1..], t, d);
        assert r == [gs[0]] + AddToGroups(gs[1..], t);
      }
    }
  }

  /** Filing `t` adds exactly `t` to the records held. */
  lemma {:induction false} AddFlatten(gs: seq<Group>, t: Transaction)
    ensures multiset(Flatten(AddToGroups(gs, t))) == multiset(Flatten(gs)) + multiset{t}
  {
    if |gs| > 0 {
      var r := AddToGroups(gs, t);
      InsertPermutes(gs[0].items, t);
      assert r[1..] == if gs[0].date == t.date then gs[1..] else AddToGroups(gs[1..], t);
      if gs[0].date != t.date {
        AddFlatten(gs[1..], t);
      }
    }
  }

  /** Filing a record keeps the buckets well formed. */
  lemma {:induction false} AddKeepsWellFormed(gs: seq<Group>, t: Transaction)
    requires WellFormed(gs)
    ensures WellFormed(AddToGroups(gs, t))
  {
    var r := AddToGroups(gs, t);
    if |gs| == 0 {
    } else if gs[0].date == t.date {
      var g := r[0];
      InsertSorted(gs[0].items, t);
      InsertPermutes(gs[0].items, t);
      assert forall u | u in g.items :: u in multiset(gs[0].items) + multiset{t};
      assert GroupOk(g);
      assert forall i | 0 < i < |r| :: r[i] == gs[i];
    } else {
      var rest := AddToGroups(gs[1..], t);
      assert WellFormed(gs[1..]) by {
        forall i, j | 0 <= i < j < |gs[1..]|
          ensures gs[1..][i].date != gs[1..][j].date
        {
          assert gs[1..][i] == gs[i + 1] && gs[1..][j] == gs[j + 1];
        }
      }
      AddKeepsWellFormed(gs[1..], t);
      forall j | 0 <= j < |rest|
        ensures rest[j].date != gs[0].date
      {
        assert rest[j] in rest;
        AddHasKey(gs[1..], t, rest[j].date);
        if HasKey(gs[1..], rest[j].date) {
          var g :| g in gs[1..] && g.date == rest[j].date;
          var k :| 0 <= k < |gs[1..]| && gs[1..][k] == g;
          assert gs[k + 1] == g;
        }
      }
      assert r == [gs[0]] + rest;
    }
  }

  /**
    The grouper: visit the fetched records in order, filing each one. Written
    over prefixes so that the last record is the one filed last.
   */
  function GroupByDate(ts: seq<Transaction>): (r: seq<Group>)
    ensures WellFormed(r)
    ensures multiset(Flatten(r)) == multiset(ts)
    decreases |ts|
  {
    if |ts| == 0 then []
    else
      var prefix := ts[..|ts| - 1];
      var last := ts[|ts| - 1];
      assert ts == prefix + [last];
      AddKeepsWellFormed(GroupByDate(prefix), last);
      AddFlatten(GroupByDate(prefix), last);
      AddToGroups(GroupByDate(prefix), last)
  }

  /** A bucket exists for a date exactly when some record has that date. */
  lemma {:induction false} GroupKeys(ts: seq<Transaction>, d: Timestamp)
    ensures HasKey(GroupByDate(ts), d) <==> exists t :: t in ts && t.date == d
    decreases |ts|
  {
    if |ts| > 0 {
      var prefix := ts[..|ts| - 1];
      var last := ts[|ts| - 1];
      assert ts == prefix + [last];
      GroupKeys(prefix, d);
      AddHasKey(GroupByDate(prefix), last, d);
    }
  }

  /** Each bucket holds exactly its date's records, stably sorted newest-created-first. */
  lemma {:induction false} GroupContents(ts: seq<Transaction>, d: Timestamp)
    ensures StableNewestFirst(ItemsOf(GroupByDate(ts), d), Select(ts, OnDate(d)))
    decreases |ts|
  {
    if |ts| > 0 {
      var prefix := ts[..|ts| - 1];
      var t := ts[|ts| - 1];
      var before := ItemsOf(GroupByDate(prefix), d);
      assert ts == prefix + [t];
      GroupContents(prefix, d);
      AddItemsOf(GroupByDate(prefix), t, d);
      SelectAppend(prefix, [t], OnDate(d));
      if d == t.date {
        assert Select([t], OnDate(d)) == [t];
        InsertExtendsStable(before, Select(prefix, OnDate(d)), t);
      } else {
        assert Select([t], OnDate(d)) == [];
        assert Select(ts, OnDate(d)) == Select(prefix, OnDate(d));
        assert ItemsOf(GroupByDate(ts), d) == before;
      }
    }
  }

  /** With distinct keys, a bucket's items are the ones looked up by its key. */
  lemma {:induction false} ItemsOfAt(gs: seq<Group>, i: nat)
    requires KeysDistinct(gs) && i < |gs|
    ensures ItemsOf(gs, gs[i].date) == gs[i].items
  {
    if i > 0 {
      ItemsOfAt(gs[1..], i - 1);
    }
  }
}
