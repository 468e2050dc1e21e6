/** Concurrent postings at the granularity of single statements: each posting locks
    the next row in ascending order and reads its committed balance, inserts and
    accumulates one entry, writes one balance, logs, and commits or aborts. Writes
    stay private until the commit. Locks are exclusive and held to the end. */
module LedgerProtocol {
  import opened Common
  import opened Money
  import opened Tables
  import opened Ledger
  import opened LedgerFacts
  import opened LedgerHistory
  import opened LedgerTrail
  import Audit

  datatype Phase =
    | Waiting
    | Locking(targets: seq<Id>, scanned: nat, rows: map<Id, Account>)
    | Inserting(rows: map<Id, Account>, work: map<Id, real>, done: nat)
    | Flushing(rows: map<Id, Account>, work: map<Id, real>, written: map<Id, int>)
    | Logging(rows: map<Id, Account>, written: map<Id, int>, logged: nat)
    | Committed
    | Aborted

  /** A validated request on its way through the transaction, with its fresh ids. */
  datatype Posting = Posting(req: PostRequest, txn: Id, event: Id, phase: Phase)

  /** What one committed transaction did to the books, and the event it logged. */
  datatype Commit = Commit(op: Op, log: Option<AuditEvent>)

  function Ops(history: seq<Commit>): (ops: seq<Op>)
    ensures |ops| == |history|
  {
    seq(|history|, i requires 0 <= i < |history| => history[i].op)
  }

  /** The committed tables, the row locks, the postings, and the history of commits in
      commit order. */
  datatype Config = Config(tables: State, locks: map<Id, nat>, postings: seq<Posting>, auditing: bool,
                           history: seq<Commit>)

  datatype Step =
    | Go(p: nat, choice: Id)         // posting p runs its next statement; choice: next row of the map order
    | Fault(p: nat)                  // posting p fails at this point
    | Other(op: Op, log: Option<AuditEvent>)   // another client opens accounts or deletes unreferenced ones

  function Rows(ph: Phase): map<Id, Account> {
    match ph
    case Locking(_, _, rows) => rows
    case Inserting(rows, _, _) => rows
    case Flushing(rows, _, _) => rows
    case Logging(rows, _, _) => rows
    case _ => map[]
  }

  predicate Finished(q: Posting) {
    q.phase.Committed? || q.phase.Aborted?
  }

  /** Only a lock held by another posting makes a posting wait. */
  predicate Blocked(c: Config, p: nat)
    requires p < |c.postings|
  {
    var ph := c.postings[p].phase;
    ph.Locking? && ph.scanned < |ph.targets| && ph.targets[ph.scanned] in c.locks
  }

  /** uuid.New() yields an event id that nobody has. */
  predicate NewEvent(c: Config, id: Id) {
    && (forall e | e in c.tables.audit :: e.id != id)
    && (forall q | q in c.postings :: q.event != id)
  }

  predicate Enabled(c: Config, s: Step) {
    match s
    case Go(p, choice) =>
      && p < |c.postings| && !Finished(c.postings[p]) && !Blocked(c, p)
      && var ph := c.postings[p].phase;
         (ph.Flushing? && ph.written.Keys != ph.work.Keys ==> choice in ph.work && choice !in ph.written)
    case Fault(p) => p < |c.postings| && !Finished(c.postings[p])
    case Other(op, log) =>
      && (log.Some? ==> log.value.entityType != LEDGER && NewEvent(c, log.value.id))
      && !op.Posted? && Allowed(BooksOf(c.tables), op)
      && (op.Closed? ==> forall id | id in op.ids :: id !in c.locks)
  }

  /** What a statement does besides advancing its own posting: nothing, take one row
      lock, roll back, or commit. The last two release every lock. */
  datatype Effect = Keep | Take(id: Id) | Undo | Publish

  datatype Move = Move(phase: Phase, effect: Effect)

  /** The statement that posting q runs next, given the committed accounts. */
  function NextMove(accounts: map<Id, Account>, auditing: bool, q: Posting, choice: Id): Move
    requires q.phase.Flushing? && q.phase.written.Keys != q.phase.work.Keys ==> choice in q.phase.work
  {
    var es := q.req.entries;
    match q.phase
    case Waiting => Move(Locking(Sorted(Accounts(es) * accounts.Keys), 0, map[]), Keep)
    case Locking(targets, n, rows) =>
      if n < |targets| then
        var id := targets[n];
        if id in accounts then Move(Locking(targets, n + 1, rows[id := accounts[id]]), Take(id))
        else Move(Locking(targets, n + 1, rows), Keep)
      else if |rows| != |Accounts(es)| then Move(Aborted, Undo)
      else Move(Inserting(rows, ReadBalances(rows, rows.Keys), 0), Keep)
    case Inserting(rows, work, n) =>
      if n < |es| then
        var e := es[n];
        if !RowFits(e) || e.account !in work || e.account !in rows then Move(Aborted, Undo)
        else Move(Inserting(rows,
               work[e.account := work[e.account] + Signed(rows[e.account].kind, e.side, e.amount)], n + 1), Keep)
      else Move(Flushing(rows, work, map[]), Keep)
    case Flushing(rows, work, written) =>
      if written.Keys != work.Keys then
        if !Fits(Round(work[choice])) then Move(Aborted, Undo)
        else Move(Flushing(rows, work, written[choice := Round(work[choice])]), Keep)
      else Move(Logging(rows, written, 0), Keep)
    case Logging(rows, written, k) =>
      if auditing && k < 2 then Move(Logging(rows, written, k + 1), Keep)
      else Move(Committed, Publish)
    case _ => Move(q.phase, Keep)
  }

  /** The tables after q commits the balances it wrote. */
  function Published(s: State, auditing: bool, q: Posting): State
    requires q.phase.Logging?
  {
    var t := s.(accounts := WriteBack(s.accounts, q.phase.written),
                entries := s.entries + Stored(q.txn, q.req.description, q.req.entries));
    if auditing then Audit.Logged(t, Audit.BuildEvent(q.event, LEDGER, q.txn, Create)) else t
  }

  /** How a posting stands in the history. */
  function CommitOf(auditing: bool, q: Posting): Commit {
    Commit(Posted(q.txn, q.req),
           if auditing then Some(Audit.BuildEvent(q.event, LEDGER, q.txn, Create)) else None)
  }

  /** One commit as an atomic step on all tables. */
  function Committing(s: State, h: Commit): State {
    var b := Apply(BooksOf(s), h.op);
    var t := s.(accounts := b.accounts, entries := b.entries);
    if h.log.Some? then Audit.Logged(t, h.log.value) else t
  }

  /** The commits run one after another. */
  function Serially(s: State, history: seq<Commit>): State {
    if history == [] then s
    else Committing(Serially(s, history[..|history| - 1]), history[|history| - 1])
  }

  function Perform(c: Config, p: nat, m: Move): Config
    requires p < |c.postings| && (m.effect.Publish? ==> c.postings[p].phase.Logging?)
  {
    var q := c.postings[p];
    var d := c.(postings := c.postings[p := q.(phase := m.phase)]);
    match m.effect
    case Keep => d
    case Take(id) => d.(locks := c.locks[id := p])
    case Undo => d.(locks := c.locks - Rows(q.phase).Keys)
    case Publish =>
      d.(locks := c.locks - Rows(q.phase).Keys,
         tables := Published(c.tables, c.auditing, q),
         history := c.history + [CommitOf(c.auditing, q)])
  }

  function Do(c: Config, s: Step): Config
    requires Enabled(c, s)
  {
    match s
    case Go(p, choice) => Perform(c, p, NextMove(c.tables.accounts, c.auditing, c.postings[p], choice))
    case Fault(p) => Perform(c, p, Move(Aborted, Undo))
    case Other(op, log) =>
      c.(tables := Committing(c.tables, Commit(op, log)), history := c.history + [Commit(op, log)])
  }

  // ---- the invariant ----

  /** Posting p works on committed balances: it holds the lock of every row it read,
      and the row still reads the same. */
  ghost predicate HoldsRows(accounts: map<Id, Account>, locks: map<Id, nat>, rows: map<Id, Account>, p: nat) {
    forall id | id in rows :: id in locks && locks[id] == p && id in accounts && accounts[id] == rows[id]
  }

  ghost predicate PhaseOk(es: seq<EntryRequest>, ph: Phase) {
    match ph
    case Waiting | Committed | Aborted => true
    case Locking(targets, n, rows) =>
      && Ascending(targets) && n <= |targets|
      && (forall i | 0 <= i < |targets| :: targets[i] in Accounts(es))
      && (forall id | id in rows :: id in targets[..n])
    case Inserting(rows, work, n) =>
      && rows.Keys == Accounts(es) && n <= |es| && RowsFit(es[..n])
      && work == Accrued(ReadBalances(rows, rows.Keys), ReadKinds(rows, rows.Keys), es[..n])
    case Flushing(rows, work, written) =>
      && rows.Keys == Accounts(es) && RowsFit(es)
      && work == Accrued(ReadBalances(rows, rows.Keys), ReadKinds(rows, rows.Keys), es)
      && WrittenOk(work, written)
    case Logging(rows, written, k) =>
      && rows.Keys == Accounts(es) && RowsFit(es) && k <= 2
      && written == Units(Accrued(ReadBalances(rows, rows.Keys), ReadKinds(rows, rows.Keys), es))
      && AllFit(written)
  }

  ghost predicate WrittenOk(work: map<Id, real>, written: map<Id, int>) {
    forall id | id in written :: id in work && written[id] == Round(work[id]) && Fits(written[id])
  }

  ghost predicate PostingOk(c: Config, p: nat)
    requires p < |c.postings|
  {
    var q := c.postings[p];
    && Valid(q.req)
    && HoldsRows(c.tables.accounts, c.locks, Rows(q.phase), p)
    && PhaseOk(q.req.entries, q.phase)
  }

  /** Every lock is held by a posting that read the row. */
  ghost predicate LocksOk(c: Config) {
    forall id | id in c.locks :: c.locks[id] < |c.postings| && id in Rows(c.postings[c.locks[id]].phase)
  }

  ghost predicate Inv(c: Config) {
    LocksOk(c) && forall p | 0 <= p < |c.postings| :: PostingOk(c, p)
  }

  /** Fresh configurations: any tables, validated postings, nothing started. */
  ghost predicate Initial(c: Config) {
    && c.locks == map[] && c.history == []
    && forall p | 0 <= p < |c.postings| :: c.postings[p].phase == Waiting && Valid(c.postings[p].req)
  }

  // ---- every step keeps the invariant ----

  lemma RowsFound(es: seq<EntryRequest>, rows: map<Id, Account>)
    requires rows.Keys <= Accounts(es) && |rows| == |Accounts(es)|
    ensures rows.Keys == Accounts(es)
  {
    assert Accounts(es) == rows.Keys + (Accounts(es) - rows.Keys);
    assert |rows.Keys| == |rows|;
  }

  lemma LockingAdvances(accounts: map<Id, Account>, q: Posting, m: Move)
    requires q.phase.Waiting? || q.phase.Locking?
    requires PhaseOk(q.req.entries, q.phase) && m == NextMove(accounts, true, q, 0)
    ensures PhaseOk(q.req.entries, m.phase)
  {
    var es := q.req.entries;
    match q.phase
    case Waiting =>
      var targets := Sorted(Accounts(es) * accounts.Keys);
      forall i | 0 <= i < |targets| ensures targets[i] in Accounts(es) {
        assert targets[i] in targets;
      }
    case Locking(targets, n, rows) =>
      if n < |targets| {
        assert targets[..n + 1] == targets[..n] + [targets[n]];
      } else if |rows| == |Accounts(es)| {
        assert targets[..n] == targets;
        RowsFound(es, rows);
        NothingAccrued(es, rows);
      }
  }

  /** The working copies right after the rows were read. */
  lemma NothingAccrued(es: seq<EntryRequest>, rows: map<Id, Account>)
    requires rows.Keys == Accounts(es)
    ensures PhaseOk(es, Inserting(rows, ReadBalances(rows, rows.Keys), 0))
  {
    assert es[..0] == [];
  }

  lemma InsertingAdvances(accounts: map<Id, Account>, q: Posting, m: Move)
    requires q.phase.Inserting?
    requires PhaseOk(q.req.entries, q.phase) && m == NextMove(accounts, true, q, 0)
    ensures PhaseOk(q.req.entries, m.phase)
  {
    var es, n, rows := q.req.entries, q.phase.done, q.phase.rows;
    if n < |es| {
      RowsFitPrefix(es, n);
      if es[n].account in rows {
        AccruedPrefix(ReadBalances(rows, rows.Keys), ReadKinds(rows, rows.Keys), es, n);
      }
    } else {
      assert es[..n] == es;
    }
  }

  /** The next phase is again well formed for the same entries. */
  lemma {:induction false} PhaseAdvances(accounts: map<Id, Account>, auditing: bool, q: Posting, choice: Id)
    requires PhaseOk(q.req.entries, q.phase)
    requires q.phase.Flushing? && q.phase.written.Keys != q.phase.work.Keys ==> choice in q.phase.work
    ensures PhaseOk(q.req.entries, NextMove(accounts, auditing, q, choice).phase)
  {
    match q.phase
    case Waiting => LockingAdvances(accounts, q, NextMove(accounts, auditing, q, choice));
    case Locking(_, _, _) => LockingAdvances(accounts, q, NextMove(accounts, auditing, q, choice));
    case Inserting(_, _, _) => InsertingAdvances(accounts, q, NextMove(accounts, auditing, q, choice));
    case Flushing(rows, work, written) =>
      if written.Keys == work.Keys {
        assert written == Units(work);
      }
    case _ =>
  }

  /** A move changes the rows it holds as its effect says. */
  lemma MoveRows(accounts: map<Id, Account>, auditing: bool, q: Posting, choice: Id)
    requires q.phase.Flushing? && q.phase.written.Keys != q.phase.work.Keys ==> choice in q.phase.work
    ensures var m := NextMove(accounts, auditing, q, choice);
            match m.effect
            case Keep => Rows(m.phase) == Rows(q.phase)
            case Take(id) =>
              && q.phase.Locking? && q.phase.scanned < |q.phase.targets| && id == q.phase.targets[q.phase.scanned]
              && id in accounts && Rows(m.phase) == Rows(q.phase)[id := accounts[id]]
            case Undo => m.phase == Aborted
            case Publish => m.phase == Committed && q.phase.Logging?
    ensures !Finished(q) && !NextMove(accounts, auditing, q, choice).effect.Publish? ==>
              NextMove(accounts, auditing, q, choice).phase != Committed
  {
  }

  ghost predicate MoveOk(c: Config, p: nat, m: Move)
    requires p < |c.postings|
  {
    match m.effect
    case Keep => Rows(m.phase) == Rows(c.postings[p].phase)
    case Take(id) => id !in c.locks && id in c.tables.accounts
                     && Rows(m.phase) == Rows(c.postings[p].phase)[id := c.tables.accounts[id]]
    case Undo => m.phase == Aborted
    case Publish => m.phase == Committed && c.postings[p].phase.Logging?
  }

  /** Moves of one posting leave the rows of another alone. */
  lemma OthersKeepRows(c: Config, p: nat, m: Move, r: nat)
    requires Inv(c) && p < |c.postings| && r < |c.postings| && p != r && MoveOk(c, p, m)
    ensures var d := Perform(c, p, m);
            HoldsRows(d.tables.accounts, d.locks, Rows(c.postings[r].phase), r)
  {
    assert PostingOk(c, p) && PostingOk(c, r);
  }

  lemma MoverKeepsRows(c: Config, p: nat, m: Move)
    requires Inv(c) && p < |c.postings| && MoveOk(c, p, m)
    ensures var d := Perform(c, p, m);
            HoldsRows(d.tables.accounts, d.locks, Rows(m.phase), p)
  {
    assert PostingOk(c, p);
  }

  lemma MoveKeepsLocks(c: Config, p: nat, m: Move)
    requires Inv(c) && p < |c.postings| && MoveOk(c, p, m)
    ensures LocksOk(Perform(c, p, m))
  {
    assert PostingOk(c, p);
  }

  lemma PerformKeepsInv(c: Config, p: nat, m: Move)
    requires Inv(c) && p < |c.postings| && MoveOk(c, p, m)
    requires PhaseOk(c.postings[p].req.entries, m.phase)
    ensures Inv(Perform(c, p, m))
  {
    var d := Perform(c, p, m);
    MoveKeepsLocks(c, p, m);
    forall r | 0 <= r < |d.postings| ensures PostingOk(d, r) {
      assert PostingOk(c, r);
      if r == p {
        MoverKeepsRows(c, p, m);
      } else {
        OthersKeepRows(c, p, m, r);
      }
    }
  }

  lemma OtherKeepsInv(c: Config, op: Op, log: Option<AuditEvent>)
    requires Inv(c) && Enabled(c, Other(op, log))
    ensures Inv(Do(c, Other(op, log)))
  {
    forall r | 0 <= r < |c.postings| ensures PostingOk(Do(c, Other(op, log)), r) {
      assert PostingOk(c, r);
    }
  }

  lemma StepKeepsInv(c: Config, s: Step)
    requires Inv(c) && Enabled(c, s)
    ensures Inv(Do(c, s))
  {
    match s
    case Go(p, choice) =>
      assert PostingOk(c, p);
      PhaseAdvances(c.tables.accounts, c.auditing, c.postings[p], choice);
      MoveRows(c.tables.accounts, c.auditing, c.postings[p], choice);
      PerformKeepsInv(c, p, NextMove(c.tables.accounts, c.auditing, c.postings[p], choice));
    case Fault(p) => PerformKeepsInv(c, p, Move(Aborted, Undo));
    case Other(op, log) => OtherKeepsInv(c, op, log);
  }

  // ---- runs ----

  /** A statement that cannot run at its turn waits: nothing happens. */
  ghost function Attempt(c: Config, s: Step): Config {
    if Enabled(c, s) then Do(c, s) else c
  }

  /** Any schedule of attempted steps. */
  ghost function Exec(c: Config, steps: seq<Step>): (d: Config)
    ensures |d.postings| == |c.postings|
    decreases |steps|
  {
    if steps == [] then c else Exec(Attempt(c, steps[0]), steps[1..])
  }

  /** Every step of the schedule can run at its turn. */
  ghost predicate Runs(c: Config, steps: seq<Step>)
    decreases |steps|
  {
    steps != [] ==> Enabled(c, steps[0]) && Runs(Attempt(c, steps[0]), steps[1..])
  }

  lemma {:induction false} RunKeepsInv(c: Config, steps: seq<Step>)
    requires Inv(c)
    ensures Inv(Exec(c, steps))
    decreases |steps|
  {
    if steps != [] {
      if Enabled(c, steps[0]) {
        StepKeepsInv(c, steps[0]);
      }
      RunKeepsInv(Attempt(c, steps[0]), steps[1..]);
    }
  }

  // ---- refinement: a commit is one atomic posting ----

  /** What posting p publishes is the atomic posting of its request on the tables as
      they are at the commit, and that posting is acceptable there. */
  lemma CommitIsAtomic(c: Config, p: nat)
    requires Inv(c) && p < |c.postings| && c.postings[p].phase.Logging?
    ensures var q := c.postings[p];
            && Postable(BooksOf(c.tables), q.req)
            && Published(c.tables, c.auditing, q) == Ledger.Committed(c.tables, c.auditing, q.txn, q.event, q.req)
  {
    assert PostingOk(c, p);
    var q := c.postings[p];
    WrittenIsPost(BooksOf(c.tables), q.txn, q.req, q.phase.rows, q.phase.written);
  }

  /** Balances accumulated on rows that still read the same are those of the posting. */
  lemma WrittenIsPost(b: Books, txn: Id, req: PostRequest, rows: map<Id, Account>, written: map<Id, int>)
    requires Valid(req) && rows.Keys == Accounts(req.entries) && RowsFit(req.entries) && AllFit(written)
    requires forall id | id in rows :: id in b.accounts && b.accounts[id] == rows[id]
    requires written == Units(Accrued(ReadBalances(rows, rows.Keys), ReadKinds(rows, rows.Keys), req.entries))
    ensures Postable(b, req) && WriteBack(b.accounts, written) == Post(b, txn, req).accounts
  {
    var ids := Accounts(req.entries);
    assert ReadBalances(rows, ids) == ReadBalances(b.accounts, ids);
    assert ReadKinds(rows, ids) == ReadKinds(b.accounts, ids);
    WriteBackIsPost(b, txn, req);
    WorkedFits(b, req);
  }

  /** Every statement either leaves the tables and the history alone or performs one
      allowed operation atomically. */
  lemma StepRefines(c: Config, s: Step)
    requires Inv(c) && Enabled(c, s)
    ensures var d := Do(c, s);
            || (d.tables == c.tables && d.history == c.history)
            || exists h :: d.history == c.history + [h] && Allowed(BooksOf(c.tables), h.op)
                           && d.tables == Committing(c.tables, h)
  {
    if s.Go? {
      MoveRows(c.tables.accounts, c.auditing, c.postings[s.p], s.choice);
      if NextMove(c.tables.accounts, c.auditing, c.postings[s.p], s.choice).effect.Publish? {
        CommitIsAtomic(c, s.p);
        assert Do(c, s).history == c.history + [CommitOf(c.auditing, c.postings[s.p])];
      }
    } else if s.Other? {
      assert Do(c, s).history == c.history + [Commit(s.op, s.log)];
    }
  }

  ghost predicate Serial(s: State, c: Config) {
    Legal(BooksOf(s), Ops(c.history)) && c.tables == Serially(s, c.history)
  }

  lemma OpsAppend(history: seq<Commit>, h: Commit)
    ensures Ops(history + [h]) == Ops(history) + [h.op]
  {
  }

  /** On the books the serial run is the replay of its operations. */
  lemma {:induction false} SeriallyReplays(s: State, history: seq<Commit>)
    ensures BooksOf(Serially(s, history)) == Replay(BooksOf(s), Ops(history))
  {
    if history != [] {
      var init, h := history[..|history| - 1], history[|history| - 1];
      SeriallyReplays(s, init);
      OpsAppend(init, h);
      assert history == init + [h];
      ReplayAppend(BooksOf(s), Ops(init), h.op);
    }
  }

  lemma SerialAppend(s: State, history: seq<Commit>, h: Commit)
    requires Legal(BooksOf(s), Ops(history)) && Allowed(BooksOf(Serially(s, history)), h.op)
    ensures Legal(BooksOf(s), Ops(history + [h]))
    ensures Serially(s, history + [h]) == Committing(Serially(s, history), h)
  {
    SeriallyReplays(s, history);
    OpsAppend(history, h);
    ReplayAppend(BooksOf(s), Ops(history), h.op);
    assert (history + [h])[..|history|] == history;
  }

  lemma {:induction false} StepKeepsSerial(start: State, c: Config, s: Step)
    requires Inv(c) && Enabled(c, s) && Serial(start, c)
    ensures Serial(start, Do(c, s))
  {
    StepRefines(c, s);
    var d := Do(c, s);
    if d.history != c.history {
      var h :| d.history == c.history + [h] && Allowed(BooksOf(c.tables), h.op)
               && d.tables == Committing(c.tables, h);
      SerialAppend(start, c.history, h);
    }
  }

  lemma {:induction false} RunIsSerial(start: State, c: Config, steps: seq<Step>)
    requires Inv(c) && Serial(start, c)
    ensures Serial(start, Exec(c, steps))
    decreases |steps|
  {
    if steps != [] {
      if Enabled(c, steps[0]) {
        StepKeepsInv(c, steps[0]);
        StepKeepsSerial(start, c, steps[0]);
      }
      RunIsSerial(start, Attempt(c, steps[0]), steps[1..]);
    }
  }

  // ---- the history records exactly the committed postings ----

  ghost predicate DistinctTxns(c: Config) {
    forall p, q | 0 <= p < q < |c.postings| :: c.postings[p].txn != c.postings[q].txn
  }

  ghost predicate CommittedAs(c: Config, p: nat, h: Commit) {
    p < |c.postings| && c.postings[p].phase == Committed && h == CommitOf(c.auditing, c.postings[p])
  }

  ghost predicate Faithful(c: Config) {
    && (forall p | 0 <= p < |c.postings| && c.postings[p].phase == Committed ::
          CommitOf(c.auditing, c.postings[p]) in c.history)
    && (forall i | 0 <= i < |c.history| && c.history[i].op.Posted? :: exists p :: CommittedAs(c, p, c.history[i]))
    && (forall i, j | 0 <= i < j < |c.history| && c.history[i].op.Posted? && c.history[j].op.Posted? ::
          c.history[i].op.txn != c.history[j].op.txn)
  }

  /** A commit adds its posting to the history; its transaction id is new there. */
  lemma CommitKeepsFaithful(c: Config, p: nat)
    requires DistinctTxns(c) && Faithful(c) && p < |c.postings| && c.postings[p].phase.Logging?
    ensures Faithful(Perform(c, p, Move(Committed, Publish)))
  {
    var d := Perform(c, p, Move(Committed, Publish));
    var h := d.history[|c.history|];
    forall i | 0 <= i < |d.history| && d.history[i].op.Posted? ensures exists r :: CommittedAs(d, r, d.history[i]) {
      if i < |c.history| {
        var r :| CommittedAs(c, r, c.history[i]);
        assert CommittedAs(d, r, d.history[i]);
      } else {
        assert CommittedAs(d, p, d.history[i]);
      }
    }
    NewInHistory(c, p);
    assert h in d.history;
    assert forall x | x in c.history :: x in d.history;
  }

  /** The transaction id of an uncommitted posting is not in the history. */
  lemma NewInHistory(c: Config, p: nat)
    requires DistinctTxns(c) && Faithful(c) && p < |c.postings| && !c.postings[p].phase.Committed?
    ensures forall i | 0 <= i < |c.history| && c.history[i].op.Posted? :: c.history[i].op.txn != c.postings[p].txn
  {
    forall i | 0 <= i < |c.history| && c.history[i].op.Posted? ensures c.history[i].op.txn != c.postings[p].txn {
      var r :| CommittedAs(c, r, c.history[i]);
      assert r != p;
    }
  }

  lemma QuietKeepsFaithful(c: Config, d: Config)
    requires DistinctTxns(c) && Faithful(c) && |d.postings| == |c.postings| && d.auditing == c.auditing
    requires d.history == c.history || exists h: Commit :: !h.op.Posted? && d.history == c.history + [h]
    requires forall p | 0 <= p < |c.postings| ::
               && d.postings[p] == c.postings[p].(phase := d.postings[p].phase)
               && (d.postings[p].phase == Committed <==> c.postings[p].phase == Committed)
    ensures Faithful(d)
  {
    forall i | 0 <= i < |d.history| && d.history[i].op.Posted? ensures exists p :: CommittedAs(d, p, d.history[i]) {
      var p :| CommittedAs(c, p, c.history[i]);
      assert CommittedAs(d, p, d.history[i]);
    }
  }

  lemma StepKeepsFaithful(c: Config, s: Step)
    requires DistinctTxns(c) && Faithful(c) && Enabled(c, s)
    ensures DistinctTxns(Do(c, s)) && Faithful(Do(c, s))
  {
    var d := Do(c, s);
    match s
    case Go(p, choice) =>
      var m := NextMove(c.tables.accounts, c.auditing, c.postings[p], choice);
      MoveRows(c.tables.accounts, c.auditing, c.postings[p], choice);
      if m.effect.Publish? {
        CommitKeepsFaithful(c, p);
      } else {
        QuietKeepsFaithful(c, d);
      }
    case Fault(p) => QuietKeepsFaithful(c, d);
    case Other(_, _) => QuietKeepsFaithful(c, d);
  }

  /** Each committed posting stands in the history once, and nothing else does. */
  lemma {:induction false} HistoryIsExact(c: Config, steps: seq<Step>)
    requires DistinctTxns(c) && Faithful(c)
    ensures Faithful(Exec(c, steps))
    decreases |steps|
  {
    if steps != [] {
      if Enabled(c, steps[0]) {
        StepKeepsFaithful(c, steps[0]);
      }
      HistoryIsExact(Attempt(c, steps[0]), steps[1..]);
    }
  }

  /** However the statements of concurrent postings interleave, all tables, audit trail
      and outbox included, are those of running the commits one after another in commit
      order, and that history holds each committed posting, with its own event, once and
      no other posting. */
  lemma {:induction false} ConcurrentPostingsAreSerial(c: Config, steps: seq<Step>)
    requires Initial(c) && DistinctTxns(c)
    ensures var d := Exec(c, steps);
            && Legal(BooksOf(c.tables), Ops(d.history))
            && d.tables == Serially(c.tables, d.history)
            && Faithful(d)
  {
    RunIsSerial(c.tables, c, steps);
    HistoryIsExact(c, steps);
  }

  /** All requests have at most four decimals. */
  ghost predicate OnGridPostings(c: Config) {
    OnGridOps(Ops(c.history)) && forall p | 0 <= p < |c.postings| :: AllOnGrid(c.postings[p].req.entries)
  }

  lemma StepStaysOnGrid(c: Config, s: Step)
    requires OnGridPostings(c) && Enabled(c, s)
    ensures OnGridPostings(Do(c, s))
  {
    match s
    case Go(p, _) => OpsAppend(c.history, CommitOf(c.auditing, c.postings[p]));
    case Fault(_) =>
    case Other(op, log) => OpsAppend(c.history, Commit(op, log));
  }

  lemma {:induction false} RunStaysOnGrid(c: Config, steps: seq<Step>)
    requires OnGridPostings(c)
    ensures OnGridOps(Ops(Exec(c, steps).history))
    decreases |steps|
  {
    if steps != [] {
      if Enabled(c, steps[0]) {
        StepStaysOnGrid(c, steps[0]);
      }
      RunStaysOnGrid(Attempt(c, steps[0]), steps[1..]);
    }
  }

  /** No lost update: with four-decimal amounts every committed balance is its opening
      balance plus the type-signed sum of the committed entries against it. */
  lemma {:induction false} NoLostUpdate(c: Config, steps: seq<Step>)
    requires Initial(c) && Proper(BooksOf(c.tables)) && OnGridPostings(c)
    ensures var d := Exec(c, steps);
            var o := Openings(BooksOf(c.tables), Ops(d.history));
            forall id | id in d.tables.accounts ::
              id in o && d.tables.accounts[id].balance
                         == o[id] + StoredNet(d.tables.entries, id, d.tables.accounts[id].kind)
  {
    RunIsSerial(c.tables, c, steps);
    RunStaysOnGrid(c, steps);
    SeriallyReplays(c.tables, Exec(c, steps).history);
    ReplayBalancesExact(BooksOf(c.tables), Ops(Exec(c, steps).history));
  }

  /** With any amounts, every committed balance stays within the added rounding bounds of
      its committed postings. */
  lemma {:induction false} ConcurrentDrift(c: Config, steps: seq<Step>)
    requires Initial(c) && Proper(BooksOf(c.tables))
    ensures var d := Exec(c, steps);
            DriftWithin(BooksOf(d.tables), Openings(BooksOf(c.tables), Ops(d.history)), Ops(d.history))
  {
    RunIsSerial(c.tables, c, steps);
    SeriallyReplays(c.tables, Exec(c, steps).history);
    ReplayBalances(BooksOf(c.tables), Ops(Exec(c, steps).history));
  }

  // ---- the trail under interleaving ----

  ghost predicate UnusedEvent(audit: seq<AuditEvent>, id: Id) {
    forall i | 0 <= i < |audit| :: audit[i].id != id
  }

  /** Ids of postings are distinct, and those of uncommitted ones not in the tables yet. */
  ghost predicate FreshIds(c: Config) {
    && (forall p, q | 0 <= p < q < |c.postings| ::
          c.postings[p].txn != c.postings[q].txn && c.postings[p].event != c.postings[q].event)
    && (forall p | 0 <= p < |c.postings| && c.postings[p].phase != Committed ::
          && c.postings[p].txn !in Transactions(c.tables.entries)
          && UnusedEvent(c.tables.audit, c.postings[p].event))
  }

  /** Events and outbox rows pair up, transactions and ledger events pair up. */
  ghost predicate TrailOk(c: Config) {
    && Audit.Paired(c.tables.audit, c.tables.outbox)
    && Matched(c.tables.entries, c.tables.audit)
    && FreshIds(c)
  }

  lemma CommitKeepsTables(s: State, q: Posting)
    requires q.phase.Logging? && Valid(q.req)
    requires Audit.Paired(s.audit, s.outbox) && Matched(s.entries, s.audit)
    requires q.txn !in Transactions(s.entries) && UnusedEvent(s.audit, q.event)
    ensures var t := Published(s, true, q);
            && Audit.Paired(t.audit, t.outbox) && Matched(t.entries, t.audit)
            && Transactions(t.entries) == Transactions(s.entries) + {q.txn}
  {
    PostingKeepsMatched(s.entries, s.audit, q.txn, q.event, q.req);
    PostedTransactions(s.entries, q.txn, q.req);
  }

  lemma CommitKeepsTrail(c: Config, p: nat)
    requires TrailOk(c) && c.auditing && p < |c.postings| && c.postings[p].phase.Logging? && Valid(c.postings[p].req)
    ensures TrailOk(Perform(c, p, Move(Committed, Publish)))
  {
    CommitKeepsTables(c.tables, c.postings[p]);
  }

  lemma OtherKeepsTrail(c: Config, op: Op, log: Option<AuditEvent>)
    requires TrailOk(c) && Enabled(c, Other(op, log))
    ensures TrailOk(Do(c, Other(op, log)))
  {
    var t := Committing(c.tables, Commit(op, log));
    OtherEventKeepsMatched(c.tables.entries, c.tables.audit, t.audit);
    if log.Some? {
      forall i | 0 <= i < |c.tables.audit| ensures c.tables.audit[i].id != log.value.id {
        assert c.tables.audit[i] in c.tables.audit;
      }
      forall p | 0 <= p < |c.postings| ensures c.postings[p].event != log.value.id {
        assert c.postings[p] in c.postings;
      }
    }
  }

  lemma StepKeepsTrail(c: Config, s: Step)
    requires Inv(c) && TrailOk(c) && c.auditing && Enabled(c, s)
    ensures TrailOk(Do(c, s))
  {
    match s
    case Go(p, choice) =>
      assert PostingOk(c, p);
      MoveRows(c.tables.accounts, c.auditing, c.postings[p], choice);
      if NextMove(c.tables.accounts, c.auditing, c.postings[p], choice).effect.Publish? {
        CommitKeepsTrail(c, p);
      }
    case Fault(_) =>
    case Other(op, log) => OtherKeepsTrail(c, op, log);
  }

  lemma {:induction false} RunKeepsTrail(c: Config, steps: seq<Step>)
    requires Inv(c) && TrailOk(c) && c.auditing
    ensures TrailOk(Exec(c, steps))
    decreases |steps|
  {
    if steps != [] {
      if Enabled(c, steps[0]) {
        StepKeepsInv(c, steps[0]);
        StepKeepsTrail(c, steps[0]);
      }
      RunKeepsTrail(Attempt(c, steps[0]), steps[1..]);
    }
  }

  /** With auditing on, at every point of every interleaving the events and the outbox
      rows are in bijection, and so are the committed transactions and their events. */
  lemma {:induction false} TrailSurvivesConcurrency(c: Config, steps: seq<Step>)
    requires Initial(c) && c.auditing && FreshIds(c)
    requires Audit.Paired(c.tables.audit, c.tables.outbox) && Matched(c.tables.entries, c.tables.audit)
    ensures var t := Exec(c, steps).tables;
            Audit.Paired(t.audit, t.outbox) && Matched(t.entries, t.audit)
  {
    RunKeepsTrail(c, steps);
  }

  // ---- deadlock freedom ----

  /** A waiting posting holds only rows smaller than the one it waits for. */
  lemma HeldBelowWanted(c: Config, p: nat, id: Id)
    requires Inv(c) && p < |c.postings| && Blocked(c, p) && id in Rows(c.postings[p].phase)
    ensures id < c.postings[p].phase.targets[c.postings[p].phase.scanned]
  {
    assert PostingOk(c, p);
  }

  function Wanted(c: Config, p: nat): Id
    requires p < |c.postings| && Blocked(c, p)
  {
    c.postings[p].phase.targets[c.postings[p].phase.scanned]
  }

  lemma UnblockedCanGo(c: Config, p: nat)
    requires Inv(c) && p < |c.postings| && !Finished(c.postings[p]) && !Blocked(c, p)
    ensures exists choice :: Enabled(c, Go(p, choice))
  {
    assert PostingOk(c, p);
    var ph := c.postings[p].phase;
    if ph.Flushing? && ph.written.Keys != ph.work.Keys {
      var choice :| choice in ph.work && choice !in ph.written;
      assert Enabled(c, Go(p, choice));
    } else {
      assert Enabled(c, Go(p, 0));
    }
  }

  /** The holder of the greatest wanted row is not waiting itself. */
  lemma SomeHolderUnblocked(c: Config, p: nat)
    requires Inv(c) && p < |c.postings| && Blocked(c, p)
    ensures exists q :: 0 <= q < |c.postings| && !Finished(c.postings[q]) && !Blocked(c, q)
  {
    var waiting := set q | 0 <= q < |c.postings| && Blocked(c, q);
    var wanted := set q | q in waiting :: Wanted(c, q);
    assert p in waiting && Wanted(c, p) in wanted;
    var top := Greatest(wanted);
    var q := c.locks[top];
    assert top in Rows(c.postings[q].phase);
    assert Blocked(c, q) ==> q in waiting && Wanted(c, q) in wanted;
    if Blocked(c, q) {
      HeldBelowWanted(c, q, top);
    }
  }

  /** Ascending lock order is deadlock-free: while a posting is unfinished, some posting
      can run its next statement. */
  lemma NoDeadlock(c: Config, p: nat)
    requires Inv(c) && p < |c.postings| && !Finished(c.postings[p])
    ensures exists q, choice :: Enabled(c, Go(q, choice))
  {
    var q := p;
    if Blocked(c, p) {
      SomeHolderUnblocked(c, p);
      q :| 0 <= q < |c.postings| && !Finished(c.postings[q]) && !Blocked(c, q);
    }
    UnblockedCanGo(c, q);
    var choice :| Enabled(c, Go(q, choice));
  }

  // ---- termination ----

  /** Statements a posting may still run. */
  function Work(q: Posting): int {
    var n := |q.req.entries|;
    match q.phase
    case Waiting => 3 * n + 8
    case Locking(targets, scanned, _) => |targets| - scanned + 2 * n + 7
    case Inserting(_, _, done) => n - done + n + 6
    case Flushing(_, work, written) => |work| - |written| + 5
    case Logging(_, _, logged) => 4 - logged
    case _ => 0
  }

  function TotalWork(ps: seq<Posting>): int {
    if ps == [] then 0 else TotalWork(ps[..|ps| - 1]) + Work(ps[|ps| - 1])
  }

  lemma {:induction false} TotalWorkUpdate(ps: seq<Posting>, p: nat, q: Posting)
    requires p < |ps|
    ensures TotalWork(ps[p := q]) == TotalWork(ps) - Work(ps[p]) + Work(q)
  {
    var n := |ps| - 1;
    if p < n {
      assert ps[p := q][..n] == ps[..n][p := q];
      TotalWorkUpdate(ps[..n], p, q);
    } else {
      assert ps[p := q][..n] == ps[..n];
    }
  }

  lemma {:induction false} AccountsSize(es: seq<EntryRequest>)
    ensures |Accounts(es)| <= |es|
  {
    if es != [] {
      var n := |es| - 1;
      AccountsSize(es[..n]);
      assert es == es[..n] + [es[n]];
      assert Accounts(es) == Accounts(es[..n]) + {es[n].account};
    }
  }

  lemma WorkBounds(c: Config, p: nat)
    requires Inv(c) && p < |c.postings|
    ensures Work(c.postings[p]) >= 0
    ensures !Finished(c.postings[p]) ==> Work(c.postings[p]) > 0
  {
    assert PostingOk(c, p);
    var ph := c.postings[p].phase;
    if ph.Flushing? {
      assert ph.written.Keys <= ph.work.Keys;
      assert ph.work.Keys == ph.written.Keys + (ph.work.Keys - ph.written.Keys);
      assert |ph.work| == |ph.work.Keys| && |ph.written| == |ph.written.Keys|;
    }
  }

  lemma {:induction false} TotalWorkBounds(c: Config, n: nat)
    requires Inv(c) && n <= |c.postings|
    ensures TotalWork(c.postings[..n]) >= 0
  {
    if n > 0 {
      assert c.postings[..n][..n - 1] == c.postings[..n - 1];
      TotalWorkBounds(c, n - 1);
      WorkBounds(c, n - 1);
    }
  }

  lemma SubsetSize(part: set<Id>, whole: set<Id>)
    requires part <= whole
    ensures |part| <= |whole| && (part != whole ==> |part| < |whole|)
  {
    assert whole == part + (whole - part);
  }

  lemma LockingWorks(accounts: map<Id, Account>, q: Posting)
    requires PhaseOk(q.req.entries, q.phase) && (q.phase.Waiting? || q.phase.Locking?)
    ensures Work(q.(phase := NextMove(accounts, true, q, 0).phase)) < Work(q)
  {
    var es := q.req.entries;
    AccountsSize(es);
    SubsetSize(Accounts(es) * accounts.Keys, Accounts(es));
  }

  lemma InsertingWorks(accounts: map<Id, Account>, q: Posting)
    requires PhaseOk(q.req.entries, q.phase) && q.phase.Inserting?
    ensures Work(q.(phase := NextMove(accounts, true, q, 0).phase)) < Work(q)
  {
    AccountsSize(q.req.entries);
    assert |q.phase.work| == |q.phase.work.Keys| && q.phase.work.Keys == Accounts(q.req.entries);
  }

  lemma OneMoreWritten(work: map<Id, real>, written: map<Id, int>, choice: Id, units: int)
    requires written.Keys <= work.Keys && choice !in written
    ensures |written| <= |work|
    ensures |written[choice := units]| == |written| + 1
  {
    FewerWritten(work, written);
    assert |written| == |written.Keys|;
    assert written[choice := units].Keys == written.Keys + {choice};
    assert |written[choice := units]| == |written[choice := units].Keys|;
  }

  lemma FlushingWorks(accounts: map<Id, Account>, q: Posting, choice: Id)
    requires q.phase.Flushing? && q.phase.written.Keys <= q.phase.work.Keys
    requires q.phase.written.Keys != q.phase.work.Keys ==> choice in q.phase.work && choice !in q.phase.written
    ensures Work(q.(phase := NextMove(accounts, true, q, choice).phase)) < Work(q)
  {
    var work, written := q.phase.work, q.phase.written;
    FewerWritten(work, written);
    if written.Keys != work.Keys {
      OneMoreWritten(work, written, choice, Round(work[choice]));
    }
  }

  lemma FewerWritten(work: map<Id, real>, written: map<Id, int>)
    requires written.Keys <= work.Keys
    ensures |written| <= |work|
  {
    SubsetSize(written.Keys, work.Keys);
    assert |work| == |work.Keys| && |written| == |written.Keys|;
  }

  /** Every statement leaves its posting less to do. */
  lemma MoveWorks(accounts: map<Id, Account>, auditing: bool, q: Posting, choice: Id)
    requires PhaseOk(q.req.entries, q.phase) && !Finished(q)
    requires q.phase.Flushing? && q.phase.written.Keys != q.phase.work.Keys ==>
               choice in q.phase.work && choice !in q.phase.written
    ensures Work(q.(phase := NextMove(accounts, auditing, q, choice).phase)) < Work(q)
  {
    match q.phase
    case Waiting => LockingWorks(accounts, q);
    case Locking(_, _, _) => LockingWorks(accounts, q);
    case Inserting(_, _, _) => InsertingWorks(accounts, q);
    case Flushing(_, _, _) => FlushingWorks(accounts, q, choice);
    case Logging(_, _, _) =>
  }

  lemma StepWorks(c: Config, s: Step)
    requires Inv(c) && Enabled(c, s)
    ensures TotalWork(Do(c, s).postings) <= TotalWork(c.postings) - if s.Other? then 0 else 1
  {
    match s
    case Go(p, choice) =>
      assert PostingOk(c, p);
      GoWorks(c, p, choice);
    case Fault(p) =>
      WorkBounds(c, p);
      PerformWorks(c, p, Move(Aborted, Undo));
    case Other(_, _) =>
  }

  lemma {:induction false} GoWorks(c: Config, p: nat, choice: Id)
    requires Enabled(c, Go(p, choice)) && PhaseOk(c.postings[p].req.entries, c.postings[p].phase)
    ensures TotalWork(Do(c, Go(p, choice)).postings) < TotalWork(c.postings)
  {
    MoveWorks(c.tables.accounts, c.auditing, c.postings[p], choice);
    PerformWorks(c, p, NextMove(c.tables.accounts, c.auditing, c.postings[p], choice));
  }

  lemma PerformWorks(c: Config, p: nat, m: Move)
    requires p < |c.postings| && (m.effect.Publish? ==> c.postings[p].phase.Logging?)
    requires Work(c.postings[p].(phase := m.phase)) < Work(c.postings[p])
    ensures TotalWork(Perform(c, p, m).postings) < TotalWork(c.postings)
  {
    TotalWorkUpdate(c.postings, p, c.postings[p].(phase := m.phase));
  }

  /** Statements of postings in a run. */
  function Own(steps: seq<Step>): nat {
    if steps == [] then 0 else (if steps[0].Other? then 0 else 1) + Own(steps[1..])
  }

  /** Postings cannot run forever: the work left bounds the statements still to come,
      whatever else happens in between. */
  lemma {:induction false} RunsAreBounded(c: Config, steps: seq<Step>)
    requires Inv(c) && Runs(c, steps)
    ensures Own(steps) <= TotalWork(c.postings)
    decreases |steps|
  {
    if steps == [] {
      TotalWorkBounds(c, |c.postings|);
      assert c.postings[..|c.postings|] == c.postings;
    } else {
      StepKeepsInv(c, steps[0]);
      StepWorks(c, steps[0]);
      RunsAreBounded(Attempt(c, steps[0]), steps[1..]);
    }
  }

  ghost predicate AllFinished(c: Config) {
    forall p | 0 <= p < |c.postings| :: Finished(c.postings[p])
  }

  lemma NextStatement(c: Config, p: nat) returns (s: Step)
    requires Inv(c) && p < |c.postings| && !Finished(c.postings[p])
    ensures Enabled(c, s) && Inv(Do(c, s))
    ensures 0 <= TotalWork(Do(c, s).postings) < TotalWork(c.postings)
  {
    NoDeadlock(c, p);
    var q, choice :| Enabled(c, Go(q, choice));
    s := Go(q, choice);
    StepKeepsInv(c, s);
    StepWorks(c, s);
    var d := Do(c, s);
    TotalWorkBounds(d, |d.postings|);
    assert d.postings[..|d.postings|] == d.postings;
  }

  /** From every configuration with the invariant, hence from every one a schedule reaches,
      all postings can finish, including those that must abort. */
  lemma {:induction false} EveryPostingCanFinish(c: Config) returns (steps: seq<Step>)
    requires Inv(c)
    ensures Runs(c, steps) && AllFinished(Exec(c, steps))
    decreases TotalWork(c.postings)
  {
    if p :| 0 <= p < |c.postings| && !Finished(c.postings[p]) {
      var s := NextStatement(c, p);
      var rest := EveryPostingCanFinish(Do(c, s));
      steps := [s] + rest;
      assert steps[1..] == rest;
    } else {
      steps := [];
    }
  }

  // ---- only a fault or an unpostable request aborts ----

  /** Nothing has gone wrong so far: every requested account was found when its turn came. */
  ghost predicate Unspoiled(es: seq<EntryRequest>, ph: Phase) {
    match ph
    case Locking(targets, n, rows) =>
      && (forall id | id in Accounts(es) :: id in targets)
      && n <= |targets| && (forall i | 0 <= i < n :: targets[i] in rows)
    case Aborted => false
    case _ => true
  }

  lemma LockingUnspoiled(accounts: map<Id, Account>, q: Posting)
    requires q.phase.Waiting? || q.phase.Locking?
    requires PhaseOk(q.req.entries, q.phase) && Unspoiled(q.req.entries, q.phase)
    requires Accounts(q.req.entries) <= accounts.Keys
    ensures Unspoiled(q.req.entries, NextMove(accounts, true, q, 0).phase)
  {
    var es := q.req.entries;
    match q.phase
    case Waiting => assert Accounts(es) * accounts.Keys == Accounts(es);
    case Locking(targets, n, rows) =>
      if n == |targets| {
        AllRowsRead(es, targets, rows);
      }
  }

  lemma AllRowsRead(es: seq<EntryRequest>, targets: seq<Id>, rows: map<Id, Account>)
    requires forall id | id in Accounts(es) :: id in targets
    requires forall i | 0 <= i < |targets| :: targets[i] in rows && targets[i] in Accounts(es)
    requires forall id | id in rows :: id in targets
    ensures |rows| == |Accounts(es)|
  {
    forall id ensures id in rows <==> id in Accounts(es) {
      if id in targets {
        var i :| 0 <= i < |targets| && targets[i] == id;
      }
    }
    assert rows.Keys == Accounts(es) && |rows| == |rows.Keys|;
  }

  lemma FlushingUnspoiled(b: Books, req: PostRequest, rows: map<Id, Account>, work: map<Id, real>, choice: Id)
    requires Postable(b, req) && rows.Keys == Accounts(req.entries) && choice in work
    requires forall id | id in rows :: id in b.accounts && b.accounts[id] == rows[id]
    requires work == Accrued(ReadBalances(rows, rows.Keys), ReadKinds(rows, rows.Keys), req.entries)
    ensures Fits(Round(work[choice]))
  {
    WorkedFits(b, req);
    var ids := Accounts(req.entries);
    assert ReadBalances(rows, ids) == ReadBalances(b.accounts, ids);
    assert ReadKinds(rows, ids) == ReadKinds(b.accounts, ids);
    assert choice in Units(Worked(b, req));
  }

  /** While the request is postable, its own statements do not abort it. */
  lemma GoKeepsUnspoiled(c: Config, p: nat, choice: Id)
    requires Inv(c) && Enabled(c, Go(p, choice))
    requires Unspoiled(c.postings[p].req.entries, c.postings[p].phase)
    requires Postable(BooksOf(c.tables), c.postings[p].req)
    ensures Unspoiled(c.postings[p].req.entries,
                      NextMove(c.tables.accounts, c.auditing, c.postings[p], choice).phase)
  {
    assert PostingOk(c, p);
    var q := c.postings[p];
    match q.phase
    case Waiting => LockingUnspoiled(c.tables.accounts, q);
    case Locking(_, _, _) => LockingUnspoiled(c.tables.accounts, q);
    case Inserting(_, _, n) =>
      if n < |q.req.entries| {
        assert q.req.entries[n] in q.req.entries;
      }
    case Flushing(rows, work, written) =>
      if written.Keys != work.Keys {
        FlushingUnspoiled(BooksOf(c.tables), q.req, rows, work, choice);
      }
    case _ =>
  }

  lemma StepKeepsUnspoiled(c: Config, s: Step, p: nat)
    requires Inv(c) && Enabled(c, s) && s != Fault(p)
    requires p < |c.postings| && Unspoiled(c.postings[p].req.entries, c.postings[p].phase)
    requires Postable(BooksOf(c.tables), c.postings[p].req)
    ensures var q := Do(c, s).postings[p];
            q.req == c.postings[p].req && Unspoiled(q.req.entries, q.phase)
  {
    if s.Go? && s.p == p {
      GoKeepsUnspoiled(c, p, s.choice);
    } else {
      OthersLeavePosting(c, s, p);
    }
  }

  lemma OthersLeavePosting(c: Config, s: Step, p: nat)
    requires Enabled(c, s) && p < |c.postings| && !(s.Go? && s.p == p) && s != Fault(p)
    ensures Do(c, s).postings[p] == c.postings[p]
  {
  }

  /** If a posting ends aborted although no fault hit it, then at some point of the run its
      request could not be posted: an account was missing or a value did not fit. */
  lemma {:induction false} AbortHasCause(c: Config, steps: seq<Step>, p: nat) returns (j: nat)
    requires Inv(c) && p < |c.postings| && Unspoiled(c.postings[p].req.entries, c.postings[p].phase)
    requires Fault(p) !in steps && Exec(c, steps).postings[p].phase.Aborted?
    ensures j <= |steps| && !Postable(BooksOf(Exec(c, steps[..j]).tables), c.postings[p].req)
    decreases |steps|
  {
    if !Postable(BooksOf(c.tables), c.postings[p].req) {
      j := 0;
      assert steps[..0] == [];
    } else {
      var d := Attempt(c, steps[0]);
      assert steps[0] in steps && forall s | s in steps[1..] :: s in steps;
      if Enabled(c, steps[0]) {
        StepKeepsInv(c, steps[0]);
        StepKeepsUnspoiled(c, steps[0], p);
      }
      var i := AbortHasCause(d, steps[1..], p);
      j := i + 1;
      assert steps[..j][0] == steps[0] && steps[..j][1..] == steps[1..][..i];
    }
  }

  /** In particular over every schedule from the start. */
  lemma {:induction false} OnlyUnpostableRequestsAbort(c: Config, steps: seq<Step>, p: nat) returns (j: nat)
    requires Initial(c) && p < |c.postings| && Fault(p) !in steps
    requires Exec(c, steps).postings[p].phase == Aborted
    ensures j <= |steps| && !Postable(BooksOf(Exec(c, steps[..j]).tables), c.postings[p].req)
  {
    j := AbortHasCause(c, steps, p);
  }

  // ---- a postable request left alone commits ----

  /** No other posting holds a row that p needs. */
  ghost predicate Unobstructed(c: Config, p: nat)
    requires p < |c.postings|
  {
    forall id | id in Accounts(c.postings[p].req.entries) && id in c.locks :: c.locks[id] == p
  }

  /** An own lock never blocks: the next row wanted is not locked yet. */
  lemma OwnLocksDoNotBlock(c: Config, p: nat)
    requires Inv(c) && p < |c.postings| && Unobstructed(c, p)
    ensures !Blocked(c, p)
  {
    assert PostingOk(c, p);
    if Blocked(c, p) {
      var ph := c.postings[p].phase;
      var id := ph.targets[ph.scanned];
      assert id in Rows(c.postings[c.locks[id]].phase);
      HeldBelowWanted(c, p, id);
    }
  }

  /** What one statement of p leaves when p neither aborts nor commits. */
  lemma AloneStep(c: Config, p: nat, choice: Id)
    requires Inv(c) && Enabled(c, Go(p, choice)) && Unobstructed(c, p)
    requires Unspoiled(c.postings[p].req.entries, c.postings[p].phase)
    requires Postable(BooksOf(c.tables), c.postings[p].req)
    ensures var d := Do(c, Go(p, choice));
            && Inv(d) && |d.postings| == |c.postings|
            && d.postings[p] == c.postings[p].(phase := d.postings[p].phase)
            && Work(d.postings[p]) < Work(c.postings[p])
            && d.auditing == c.auditing
            && Unspoiled(d.postings[p].req.entries, d.postings[p].phase)
            && if d.postings[p].phase == Committed then
                 d.tables == Ledger.Committed(c.tables, c.auditing, c.postings[p].txn, c.postings[p].event,
                                              c.postings[p].req)
               else d.tables == c.tables && Unobstructed(d, p)
  {
    assert PostingOk(c, p);
    var q := c.postings[p];
    var m := NextMove(c.tables.accounts, c.auditing, q, choice);
    StepKeepsInv(c, Go(p, choice));
    GoKeepsUnspoiled(c, p, choice);
    MoveRows(c.tables.accounts, c.auditing, q, choice);
    MoveWorks(c.tables.accounts, c.auditing, q, choice);
    if m.effect.Publish? {
      CommitIsAtomic(c, p);
    }
  }

  /** From every configuration with the invariant: a posting whose request is postable and
      whose rows nobody else holds commits by its own statements alone, and what it leaves
      is the atomic posting on the tables it found. */
  lemma {:induction false} AloneItCommits(c: Config, p: nat) returns (steps: seq<Step>)
    requires Inv(c) && p < |c.postings| && !Finished(c.postings[p]) && Unobstructed(c, p)
    requires Unspoiled(c.postings[p].req.entries, c.postings[p].phase)
    requires Postable(BooksOf(c.tables), c.postings[p].req)
    ensures forall s | s in steps :: s.Go? && s.p == p
    ensures Runs(c, steps)
    ensures var d, q := Exec(c, steps), c.postings[p];
            && d.postings[p] == q.(phase := Committed)
            && d.tables == Ledger.Committed(c.tables, c.auditing, q.txn, q.event, q.req)
    decreases Work(c.postings[p])
  {
    WorkBounds(c, p);
    OwnLocksDoNotBlock(c, p);
    UnblockedCanGo(c, p);
    var choice :| Enabled(c, Go(p, choice));
    AloneStep(c, p, choice);
    var d := Do(c, Go(p, choice));
    var rest := [];
    if d.postings[p].phase != Committed {
      rest := AloneItCommits(d, p);
    }
    steps := [Go(p, choice)] + rest;
    assert steps[1..] == rest;
  }

  /** In particular a waiting posting, whatever the others are doing with other rows. */
  lemma {:induction false} WaitingPostingCommits(c: Config, p: nat) returns (steps: seq<Step>)
    requires Inv(c) && p < |c.postings| && c.postings[p].phase == Waiting
    requires forall id | id in Accounts(c.postings[p].req.entries) :: id !in c.locks
    requires Postable(BooksOf(c.tables), c.postings[p].req)
    ensures forall s | s in steps :: s.Go? && s.p == p
    ensures Runs(c, steps)
    ensures var d, q := Exec(c, steps), c.postings[p];
            && d.postings[p] == q.(phase := Committed)
            && d.tables == Ledger.Committed(c.tables, c.auditing, q.txn, q.event, q.req)
  {
    steps := AloneItCommits(c, p);
  }

  /** And there is no other way for it to end: whenever only p runs and p finishes, it has
      committed. */
  lemma {:induction false} AloneItEndsCommitted(c: Config, steps: seq<Step>, p: nat)
    requires Inv(c) && p < |c.postings| && Unobstructed(c, p) && !Finished(c.postings[p])
    requires Unspoiled(c.postings[p].req.entries, c.postings[p].phase)
    requires Postable(BooksOf(c.tables), c.postings[p].req)
    requires forall s | s in steps :: s.Go? && s.p == p
    ensures Finished(Exec(c, steps).postings[p]) ==> Exec(c, steps).postings[p].phase == Committed
    decreases |steps|
  {
    if steps != [] {
      assert steps[0] in steps && forall s | s in steps[1..] :: s in steps;
      var d := Attempt(c, steps[0]);
      if Enabled(c, steps[0]) {
        AloneStep(c, p, steps[0].choice);
      }
      if d.postings[p].phase == Committed {
        FinishedStays(d, steps[1..], p);
      } else {
        AloneItEndsCommitted(d, steps[1..], p);
      }
    }
  }

  lemma {:induction false} FinishedStays(c: Config, steps: seq<Step>, p: nat)
    requires p < |c.postings| && Finished(c.postings[p])
    ensures Exec(c, steps).postings[p] == c.postings[p]
    decreases |steps|
  {
    if steps != [] {
      FinishedStays(Attempt(c, steps[0]), steps[1..], p);
    }
  }
}
