/** services/outbox_publisher.go: polling in batches of 50, marking entry by entry, and
    the cleanup that follows a non-empty batch. */
module Outbox {
  import opened Tables
  import Idempotency
  import Tokens

  const BATCH: nat := 50

  // ---- which entries a poll fetches ----

  /** Unpublished entries among the first n, n in creation order. */
  function Unpublished(rows: seq<OutboxRow>, n: nat): nat
    requires n <= |rows|
  {
    if n == 0 then 0 else Unpublished(rows, n - 1) + if rows[n - 1].published then 0 else 1
  }

  /** WHERE published_at IS NULL ORDER BY created_at LIMIT 50. */
  predicate InBatch(rows: seq<OutboxRow>, i: nat)
    requires i < |rows|
  {
    !rows[i].published && Unpublished(rows, i) < BATCH
  }

  /** Indices of the batch among the first n entries, oldest first. */
  function Batch(rows: seq<OutboxRow>, n: nat): (b: seq<nat>)
    requires n <= |rows|
    ensures forall i :: i in b <==> 0 <= i < n && InBatch(rows, i)
    ensures forall i, j | 0 <= i < j < |b| :: b[i] < b[j]
    ensures forall i | 0 <= i < |b| :: b[i] < n
    ensures |b| == if Unpublished(rows, n) < BATCH then Unpublished(rows, n) else BATCH
  {
    if n == 0 then []
    else
      var b := Batch(rows, n - 1);
      if InBatch(rows, n - 1) then b + [n - 1] else b
  }

  predicate Within(indices: seq<nat>, n: nat) {
    forall i | 0 <= i < |indices| :: indices[i] < n
  }

  /** Events of the given entries, in order. */
  function EventsOf(rows: seq<OutboxRow>, indices: seq<nat>): seq<Id>
    requires Within(indices, |rows|)
  {
    if indices == [] then []
    else EventsOf(rows, indices[..|indices| - 1]) + [rows[indices[|indices| - 1]].event]
  }

  // ---- one successful poll ----

  function Marked(row: OutboxRow): OutboxRow {
    row.(published := true)
  }

  /** Entries whose update fails stay unpublished; the loop goes on. */
  function MarkAll(rows: seq<OutboxRow>, indices: seq<nat>, failing: set<Id>): (after: seq<OutboxRow>)
    requires Within(indices, |rows|)
    ensures |after| == |rows|
    ensures forall i | 0 <= i < |rows| ::
              after[i] == if i in indices && rows[i].event !in failing then Marked(rows[i]) else rows[i]
  {
    if indices == [] then rows
    else
      var n := |indices| - 1;
      assert indices == indices[..n] + [indices[n]];
      var before := MarkAll(rows, indices[..n], failing);
      var i := indices[n];
      if rows[i].event in failing then before else before[i := Marked(before[i])]
  }

  function Poll(rows: seq<OutboxRow>, failing: set<Id>): (after: seq<OutboxRow>)
    ensures |after| == |rows|
    ensures forall i | 0 <= i < |rows| ::
              after[i] == if InBatch(rows, i) && rows[i].event !in failing then Marked(rows[i]) else rows[i]
  {
    MarkAll(rows, Batch(rows, |rows|), failing)
  }

  // ---- the publisher ----

  class OutboxPublisher {
    const db: Database

    constructor (db: Database)
      ensures this.db == db
    {
      this.db := db;
    }

    /** The query: indices of the batch, oldest first. */
    method Fetch() returns (entries: seq<nat>)
      ensures entries == Batch(db.outbox, |db.outbox|)
    {
      entries := [];
      var rows := db.outbox;
      var i := 0;
      while i < |rows| && |entries| < BATCH
        invariant i <= |rows| && entries == Batch(rows, i)
      {
        UnpublishedInBatch(rows, i, entries);
        if !rows[i].published {
          entries := entries + [i];
        }
        i := i + 1;
      }
      if i < |rows| {
        FullBatch(rows, i, |rows|);
      }
    }

    /** The loop: hand over each entry, then mark it; a failed mark is skipped. */
    method MarkEntries(entries: seq<nat>, failing: set<Id>) returns (delivered: seq<Id>)
      requires Within(entries, |db.outbox|)
      modifies db`outbox
      ensures db.outbox == MarkAll(old(db.outbox), entries, failing)
      ensures delivered == EventsOf(old(db.outbox), entries)
    {
      ghost var rows := db.outbox;
      delivered := [];
      for i := 0 to |entries|
        invariant db.outbox == MarkAll(rows, entries[..i], failing)
        invariant delivered == EventsOf(rows, entries[..i])
      {
        OneMore(rows, entries, i, failing);
        var event := db.outbox[entries[i]].event;
        delivered := delivered + [event];
        if event !in failing {
          db.outbox := db.outbox[entries[i] := Marked(db.outbox[entries[i]])];
        }
      }
      assert entries[..|entries|] == entries;
    }

    /** processOutbox: hand over and mark entry by entry, then clean up. An empty batch
        ends the round before the cleanup. */
    method ProcessOutbox(fetchFails: bool, failing: set<Id>, keysFail: bool, tokensFail: bool, now: Time)
      returns (delivered: seq<Id>)
      modifies db`outbox, db`keys, db`tokens
      ensures var rows := old(db.outbox);
              var batch := Batch(rows, |rows|);
              if fetchFails || batch == [] then
                && delivered == [] && db.outbox == rows
                && db.tokens == old(db.tokens) && db.keys == old(db.keys)
              else
                && delivered == EventsOf(rows, batch) && db.outbox == Poll(rows, failing)
                && db.tokens == (if tokensFail then old(db.tokens) else Tokens.Collect(old(db.tokens), now))
                && db.keys == (if keysFail then old(db.keys) else Idempotency.Clean(old(db.keys), now))
    {
      delivered := [];
      if fetchFails {
        return;
      }
      var entries := Fetch();
      if |entries| == 0 {
        return;
      }
      delivered := MarkEntries(entries, failing);
      if !keysFail {
        db.keys := Idempotency.Clean(db.keys, now);
      }
      if !tokensFail {
        db.tokens := Tokens.Collect(db.tokens, now);
      }
    }
  }

  /** What the loop does with the next entry. */
  lemma {:induction false} OneMore(rows: seq<OutboxRow>, entries: seq<nat>, i: nat, failing: set<Id>)
    requires i < |entries| && Within(entries, |rows|)
    ensures var before, at := MarkAll(rows, entries[..i], failing), entries[i];
            && before[at].event == rows[at].event
            && EventsOf(rows, entries[..i + 1]) == EventsOf(rows, entries[..i]) + [rows[at].event]
            && MarkAll(rows, entries[..i + 1], failing)
            == if rows[at].event in failing then before else before[at := Marked(before[at])]
  {
    assert entries[..i + 1][..i] == entries[..i] && entries[..i + 1][i] == entries[i];
  }

  /** Every entry of the batch is handed over once, in the order of the batch. */
  lemma {:induction false} DeliveredInOrder(rows: seq<OutboxRow>, indices: seq<nat>, k: nat)
    requires Within(indices, |rows|) && k < |indices|
    ensures |EventsOf(rows, indices)| == |indices| && EventsOf(rows, indices)[k] == rows[indices[k]].event
  {
    if |indices| > 1 {
      DeliveredInOrder(rows, indices[..|indices| - 1], if k < |indices| - 1 then k else 0);
    }
  }

  /** The batch is empty exactly when nothing is unpublished. */
  lemma BatchEmptyIff(rows: seq<OutboxRow>)
    ensures Batch(rows, |rows|) == [] <==> forall i | 0 <= i < |rows| :: rows[i].published
  {
    if i :| 0 <= i < |rows| && !rows[i].published {
      FirstUnpublished(rows, i);
    }
    var batch := Batch(rows, |rows|);
    assert batch != [] ==> batch[0] in batch;
  }

  lemma {:induction false} FirstUnpublished(rows: seq<OutboxRow>, i: nat)
    requires i < |rows| && !rows[i].published
    ensures exists k :: 0 <= k <= i && k in Batch(rows, |rows|)
    decreases i
  {
    if Unpublished(rows, i) < 50 {
      assert i in Batch(rows, |rows|);
    } else {
      var k := SomeUnpublished(rows, i);
      FirstUnpublished(rows, k);
    }
  }

  lemma {:induction false} SomeUnpublished(rows: seq<OutboxRow>, n: nat) returns (k: nat)
    requires n <= |rows| && Unpublished(rows, n) > 0
    ensures k < n && !rows[k].published
  {
    if rows[n - 1].published {
      k := SomeUnpublished(rows, n - 1);
    } else {
      k := n - 1;
    }
  }

  /** The batch: unpublished entries with fewer than fifty unpublished ones before them. */
  lemma BatchIs(rows: seq<OutboxRow>, i: nat)
    requires i < |rows|
    ensures i in Batch(rows, |rows|) <==> !rows[i].published && Unpublished(rows, i) < 50
    ensures |Batch(rows, |rows|)| <= 50
  {
  }

  /** While fewer than 50 were fetched, every unpublished entry belongs to the batch. */
  lemma UnpublishedInBatch(rows: seq<OutboxRow>, i: nat, b: seq<nat>)
    requires i < |rows| && b == Batch(rows, i) && |b| < BATCH
    ensures InBatch(rows, i) <==> !rows[i].published
  {
  }

  /** A full batch does not grow. */
  lemma {:induction false} FullBatch(rows: seq<OutboxRow>, m: nat, n: nat)
    requires m <= n <= |rows| && |Batch(rows, m)| == BATCH
    ensures Batch(rows, n) == Batch(rows, m)
  {
    if m < n {
      FullBatch(rows, m, n - 1);
    }
  }

  // ---- progress under failing entries ----

  /** Waiting entries among the first n that can be marked, or cannot. */
  function Waiting(rows: seq<OutboxRow>, n: nat, bad: set<Id>, isBad: bool): nat
    requires n <= |rows|
  {
    if n == 0 then 0
    else
      Waiting(rows, n - 1, bad, isBad)
      + if !rows[n - 1].published && (rows[n - 1].event in bad) == isBad then 1 else 0
  }

  lemma {:induction false} WaitingSplits(rows: seq<OutboxRow>, n: nat, bad: set<Id>)
    requires n <= |rows|
    ensures Unpublished(rows, n) == Waiting(rows, n, bad, true) + Waiting(rows, n, bad, false)
  {
    if n > 0 {
      WaitingSplits(rows, n - 1, bad);
    }
  }

  /** One poll: of the markable entries among the first n, all go as long as fewer than
      50 wait, and otherwise at least 50 minus the bad ones. */
  lemma {:induction false} PollMarks(rows: seq<OutboxRow>, after: seq<OutboxRow>, n: nat, bad: set<Id>,
                                     failing: set<Id>)
    requires n <= |rows| == |after| && failing <= bad
    requires forall i | 0 <= i < |rows| ::
               after[i] == if InBatch(rows, i) && rows[i].event !in failing then Marked(rows[i]) else rows[i]
    ensures var u, g, b := Unpublished(rows, n), Waiting(rows, n, bad, false), Waiting(rows, n, bad, true);
            && Waiting(after, n, bad, true) <= b
            && (u <= BATCH ==> Waiting(after, n, bad, false) == 0)
            && (u >= BATCH ==> Waiting(after, n, bad, false) + BATCH <= g + b)
  {
    if n > 0 {
      PollMarks(rows, after, n - 1, bad, failing);
      WaitingSplits(rows, n - 1, bad);
      WaitingSplits(rows, n, bad);
    }
  }

  // ---- runs of the publisher ----

  /** New entries are created later than all stored ones. */
  datatype Event = Added(row: OutboxRow) | FetchFailed | Polled(failing: set<Id>)

  function Step(rows: seq<OutboxRow>, e: Event): seq<OutboxRow> {
    match e
    case Added(row) => rows + [row]
    case FetchFailed => rows
    case Polled(failing) => Poll(rows, failing)
  }

  function Run(rows: seq<OutboxRow>, es: seq<Event>): (after: seq<OutboxRow>)
    ensures |after| >= |rows|
    decreases |es|
  {
    if es == [] then rows else Run(Step(rows, es[0]), es[1..])
  }

  function Polls(es: seq<Event>): nat
    decreases |es|
  {
    if es == [] then 0 else (if es[0].Polled? then 1 else 0) + Polls(es[1..])
  }

  predicate OnlyBadFail(es: seq<Event>, bad: set<Id>) {
    forall e | e in es && e.Polled? :: e.failing <= bad
  }

  lemma {:induction false} WaitingIgnoresLater(rows: seq<OutboxRow>, row: OutboxRow, n: nat, bad: set<Id>, isBad: bool)
    requires n <= |rows|
    ensures Waiting(rows + [row], n, bad, isBad) == Waiting(rows, n, bad, isBad)
  {
    if n > 0 {
      WaitingIgnoresLater(rows, row, n - 1, bad, isBad);
    }
  }

  lemma {:induction false} PublishedStays(rows: seq<OutboxRow>, es: seq<Event>, i: nat)
    requires i < |rows| && rows[i].published
    ensures Run(rows, es)[i] == rows[i]
    decreases |es|
  {
    if es != [] {
      PublishedStays(Step(rows, es[0]), es[1..], i);
    }
  }

  /** Enough polls lie ahead for entry i. */
  ghost predicate Due(rows: seq<OutboxRow>, i: nat, polls: nat, bad: set<Id>, k: nat)
    requires i < |rows|
  {
    && rows[i].event !in bad
    && Waiting(rows, i, bad, true) <= k < BATCH
    && polls * (BATCH - k) > Waiting(rows, i, bad, false)
  }

  /** A poll publishes entry i or brings it closer. */
  lemma {:induction false} PollKeepsDue(rows: seq<OutboxRow>, i: nat, polls: nat, bad: set<Id>, k: nat,
                                        failing: set<Id>)
    requires i < |rows| && !rows[i].published && Due(rows, i, polls + 1, bad, k) && failing <= bad
    ensures Poll(rows, failing)[i].published || Due(Poll(rows, failing), i, polls, bad, k)
  {
    if !InBatch(rows, i) {
      PollAdvances(rows, i, bad, k, failing);
      TimesOneMore(polls, BATCH - k);
    }
  }

  /** Progress: with at most k < 50 unmarkable entries ahead of it, a markable entry is
      published once polls * (50 - k) exceeds the markable ones ahead of it. */
  lemma {:induction false} Progress(rows: seq<OutboxRow>, es: seq<Event>, i: nat, bad: set<Id>, k: nat)
    requires i < |rows| && OnlyBadFail(es, bad) && (rows[i].published || Due(rows, i, Polls(es), bad, k))
    ensures Run(rows, es)[i].published
    decreases |es|
  {
    if rows[i].published {
      PublishedStays(rows, es, i);
    } else {
      assert es[0] in es && forall x | x in es[1..] :: x in es;
      match es[0] {
        case Added(row) =>
          WaitingIgnoresLater(rows, row, i, bad, true);
          WaitingIgnoresLater(rows, row, i, bad, false);
        case FetchFailed =>
        case Polled(failing) => PollKeepsDue(rows, i, Polls(es[1..]), bad, k, failing);
      }
      Progress(Step(rows, es[0]), es[1..], i, bad, k);
    }
  }

  lemma TimesOneMore(p: nat, d: nat)
    ensures (p + 1) * d == p * d + d
  {
  }

  /** A poll that does not reach entry i publishes at least 50 - k entries ahead of it. */
  lemma {:induction false} PollAdvances(rows: seq<OutboxRow>, i: nat, bad: set<Id>, k: nat, failing: set<Id>)
    requires i < |rows| && !rows[i].published && !InBatch(rows, i) && failing <= bad
    requires Waiting(rows, i, bad, true) <= k < BATCH
    ensures Waiting(Poll(rows, failing), i, bad, true) <= k
    ensures Waiting(Poll(rows, failing), i, bad, false) + (BATCH - k) <= Waiting(rows, i, bad, false)
  {
    PollMarks(rows, Poll(rows, failing), i, bad, failing);
  }

  lemma {:induction false} EnoughPolls(p: nat, q: nat, d: nat)
    requires d > 0 && p >= q / d + 1
    ensures p * d > q
  {
    var r := q / d + 1;
    assert q == q / d * d + q % d;
    assert r * d == q / d * d + d;
    assert p * d == r * d + (p - r) * d;
  }

  /** The bound as a count of successful polls: floor(q / (50 - k)) + 1. */
  lemma {:induction false} PublishedWithin(rows: seq<OutboxRow>, es: seq<Event>, i: nat, bad: set<Id>, k: nat)
    requires i < |rows| && rows[i].event !in bad && OnlyBadFail(es, bad)
    requires Waiting(rows, i, bad, true) <= k < 50
    requires Polls(es) >= Waiting(rows, i, bad, false) / (50 - k) + 1
    ensures Run(rows, es)[i].published
  {
    EnoughPolls(Polls(es), Waiting(rows, i, bad, false), 50 - k);
    assert Due(rows, i, Polls(es), bad, k);
    Progress(rows, es, i, bad, k);
  }

  /** Without failures a poll clears the 50 oldest entries. */
  lemma {:induction false} CleanPoll(rows: seq<OutboxRow>, after: seq<OutboxRow>, n: nat)
    requires n <= |rows| == |after|
    requires forall i | 0 <= i < |rows| :: after[i] == if InBatch(rows, i) then Marked(rows[i]) else rows[i]
    ensures Unpublished(after, n)
         == if Unpublished(rows, n) <= BATCH then 0 else Unpublished(rows, n) - BATCH
  {
    if n > 0 {
      CleanPoll(rows, after, n - 1);
    }
  }

  /** A backlog of m entries drains in ceil(m / 50) polls, and not sooner. */
  lemma {:induction false} BacklogDrains(rows: seq<OutboxRow>, es: seq<Event>)
    requires forall e | e in es :: e == Polled({})
    ensures Unpublished(Run(rows, es), |Run(rows, es)|) == 0
            <==> |es| >= (Unpublished(rows, |rows|) + 49) / 50
    decreases |es|
  {
    if es != [] {
      assert es[0] in es && forall x | x in es[1..] :: x in es;
      CleanPoll(rows, Poll(rows, {}), |rows|);
      BacklogDrains(Step(rows, es[0]), es[1..]);
    }
  }

  // ---- delivery accounting ----

  /** How often each event was handed over, and how often its mark failed. */
  datatype Counts = Counts(delivered: multiset<Id>, failed: multiset<Id>)

  /** The entries of a batch whose mark fails. */
  function Failures(rows: seq<OutboxRow>, indices: seq<nat>, failing: set<Id>): seq<Id>
    requires Within(indices, |rows|)
  {
    if indices == [] then []
    else
      var n := |indices| - 1;
      Failures(rows, indices[..n], failing)
      + if rows[indices[n]].event in failing then [rows[indices[n]].event] else []
  }

  function Account(rows: seq<OutboxRow>, c: Counts, e: Event): Counts {
    match e
    case Polled(failing) =>
      var batch := Batch(rows, |rows|);
      Counts(c.delivered + multiset(EventsOf(rows, batch)), c.failed + multiset(Failures(rows, batch, failing)))
    case _ => c
  }

  function Tally(rows: seq<OutboxRow>, c: Counts, es: seq<Event>): Counts
    decreases |es|
  {
    if es == [] then c else Tally(Step(rows, es[0]), Account(rows, c, es[0]), es[1..])
  }

  ghost predicate DistinctEvents(rows: seq<OutboxRow>) {
    forall i, j | 0 <= i < j < |rows| :: rows[i].event != rows[j].event
  }

  ghost predicate Stored(rows: seq<OutboxRow>, event: Id) {
    exists i | 0 <= i < |rows| :: rows[i].event == event
  }

  /** Deliveries of an entry = failed marks + 1 if it is published; nothing else was
      ever delivered. */
  ghost predicate Balanced(rows: seq<OutboxRow>, c: Counts) {
    && (forall i | 0 <= i < |rows| ::
          c.delivered[rows[i].event] == c.failed[rows[i].event] + if rows[i].published then 1 else 0)
    && (forall event | event in c.delivered || event in c.failed :: Stored(rows, event))
  }

  /** The batch entry with the given event, if any. */
  ghost predicate Holds(rows: seq<OutboxRow>, indices: seq<nat>, event: Id) {
    exists i | i in indices :: i < |rows| && rows[i].event == event
  }

  ghost predicate Increasing(indices: seq<nat>) {
    forall i, j | 0 <= i < j < |indices| :: indices[i] < indices[j]
  }

  /** Among distinct events only the last index can add an occurrence. */
  lemma HoldsLast(rows: seq<OutboxRow>, indices: seq<nat>, event: Id)
    requires DistinctEvents(rows) && Within(indices, |rows|) && Increasing(indices) && indices != []
    ensures var n := |indices| - 1;
            if rows[indices[n]].event == event then
              Holds(rows, indices, event) && !Holds(rows, indices[..n], event)
            else
              (Holds(rows, indices, event) <==> Holds(rows, indices[..n], event))
  {
    var n := |indices| - 1;
    assert indices == indices[..n] + [indices[n]];
    if rows[indices[n]].event == event {
      assert indices[n] in indices;
    }
  }

  /** A poll counts each entry of its batch once. */
  lemma {:induction false} DeliveredOnce(rows: seq<OutboxRow>, indices: seq<nat>, event: Id)
    requires DistinctEvents(rows) && Within(indices, |rows|) && Increasing(indices)
    ensures multiset(EventsOf(rows, indices))[event] == if Holds(rows, indices, event) then 1 else 0
  {
    if indices != [] {
      DeliveredOnce(rows, indices[..|indices| - 1], event);
      HoldsLast(rows, indices, event);
    }
  }

  lemma {:induction false} FailedOnce(rows: seq<OutboxRow>, indices: seq<nat>, failing: set<Id>, event: Id)
    requires DistinctEvents(rows) && Within(indices, |rows|) && Increasing(indices)
    ensures multiset(Failures(rows, indices, failing))[event]
         == if Holds(rows, indices, event) && event in failing then 1 else 0
  {
    if indices != [] {
      FailedOnce(rows, indices[..|indices| - 1], failing, event);
      HoldsLast(rows, indices, event);
    }
  }

  lemma BatchCountsOnce(rows: seq<OutboxRow>, failing: set<Id>, event: Id)
    requires DistinctEvents(rows)
    ensures var batch := Batch(rows, |rows|);
            && multiset(EventsOf(rows, batch))[event] == (if Holds(rows, batch, event) then 1 else 0)
            && multiset(Failures(rows, batch, failing))[event]
            == (if Holds(rows, batch, event) && event in failing then 1 else 0)
  {
    DeliveredOnce(rows, Batch(rows, |rows|), event);
    FailedOnce(rows, Batch(rows, |rows|), failing, event);
  }

  ghost predicate FreshlyAdded(rows: seq<OutboxRow>, es: seq<Event>)
    decreases |es|
  {
    es != [] ==>
      && (es[0].Added? ==> !es[0].row.published && !Stored(rows, es[0].row.event))
      && FreshlyAdded(Step(rows, es[0]), es[1..])
  }

  lemma PollBalancesRow(rows: seq<OutboxRow>, c: Counts, failing: set<Id>, i: nat)
    requires DistinctEvents(rows) && Balanced(rows, c) && i < |rows|
    ensures var after, c' := Poll(rows, failing), Account(rows, c, Polled(failing));
            c'.delivered[after[i].event] == c'.failed[after[i].event] + if after[i].published then 1 else 0
  {
    BatchCountsOnce(rows, failing, rows[i].event);
    BatchHolds(rows, i);
  }

  lemma BatchHolds(rows: seq<OutboxRow>, i: nat)
    requires DistinctEvents(rows) && i < |rows|
    ensures Holds(rows, Batch(rows, |rows|), rows[i].event) <==> InBatch(rows, i)
  {
    if InBatch(rows, i) {
      assert i in Batch(rows, |rows|);
    }
  }

  lemma PollCountsStored(rows: seq<OutboxRow>, c: Counts, failing: set<Id>, event: Id)
    requires DistinctEvents(rows) && Balanced(rows, c)
    requires var c' := Account(rows, c, Polled(failing)); event in c'.delivered || event in c'.failed
    ensures Stored(Poll(rows, failing), event)
  {
    BatchCountsOnce(rows, failing, event);
    var i :| 0 <= i < |rows| && rows[i].event == event;
    assert Poll(rows, failing)[i].event == event;
  }

  lemma {:induction false} PollBalances(rows: seq<OutboxRow>, c: Counts, failing: set<Id>)
    requires DistinctEvents(rows) && Balanced(rows, c)
    ensures Balanced(Poll(rows, failing), Account(rows, c, Polled(failing)))
  {
    var after, c' := Poll(rows, failing), Account(rows, c, Polled(failing));
    forall i | 0 <= i < |after|
      ensures c'.delivered[after[i].event] == c'.failed[after[i].event] + if after[i].published then 1 else 0
    {
      PollBalancesRow(rows, c, failing, i);
    }
    forall event | event in c'.delivered || event in c'.failed ensures Stored(after, event) {
      PollCountsStored(rows, c, failing, event);
    }
  }

  lemma {:induction false} StepBalances(rows: seq<OutboxRow>, c: Counts, e: Event)
    requires DistinctEvents(rows) && Balanced(rows, c)
    requires e.Added? ==> !e.row.published && !Stored(rows, e.row.event)
    ensures DistinctEvents(Step(rows, e)) && Balanced(Step(rows, e), Account(rows, c, e))
  {
    match e
    case Polled(failing) => PollBalances(rows, c, failing);
    case Added(row) =>
      forall event | event in c.delivered || event in c.failed ensures Stored(rows + [row], event) {
        var i :| 0 <= i < |rows| && rows[i].event == event;
        assert (rows + [row])[i].event == event;
      }
    case FetchFailed =>
  }

  /** At every point of a single-publisher run the accounts balance: at-least-once
      delivery, of stored entries only. */
  lemma {:induction false} DeliveryAccounting(rows: seq<OutboxRow>, c: Counts, es: seq<Event>)
    requires DistinctEvents(rows) && Balanced(rows, c) && FreshlyAdded(rows, es)
    ensures Balanced(Run(rows, es), Tally(rows, c, es))
    decreases |es|
  {
    if es != [] {
      StepBalances(rows, c, es[0]);
      DeliveryAccounting(Step(rows, es[0]), Account(rows, c, es[0]), es[1..]);
    }
  }

  /** A published entry is never delivered again. */
  lemma {:induction false} NoRedelivery(rows: seq<OutboxRow>, c: Counts, es: seq<Event>, i: nat)
    requires DistinctEvents(rows) && Balanced(rows, c) && FreshlyAdded(rows, es)
    requires i < |rows| && rows[i].published
    ensures Tally(rows, c, es).delivered[rows[i].event] == c.delivered[rows[i].event]
    decreases |es|
  {
    if es != [] {
      StepBalances(rows, c, es[0]);
      var batch := Batch(rows, |rows|);
      BatchCountsOnce(rows, {}, rows[i].event);
      assert !Holds(rows, batch, rows[i].event);
      NoRedelivery(Step(rows, es[0]), Account(rows, c, es[0]), es[1..], i);
    }
  }
}
