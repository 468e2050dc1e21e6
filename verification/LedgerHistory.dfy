/** The ledger as a history of operations: postings, opened accounts and cascaded
    deletions, and what holds after every legal history. */
module LedgerHistory {
  import opened Common
  import opened Sums
  import opened Tables
  import opened Ledger
  import opened LedgerFacts
  import Money

  datatype Op =
    | Posted(txn: Id, req: PostRequest)
    | Opened(id: Id, account: Account)
    | Closed(ids: set<Id>)

  /** When the tables accept an operation: the guards of PostTransaction, the checks of
      CreateAccount and the primary key, and the foreign key of ledger entries, which
      has no cascade. */
  predicate Allowed(b: Books, op: Op) {
    match op
    case Posted(_, req) => Postable(b, req)
    case Opened(id, account) => id !in b.accounts && account.kind != OtherType
    case Closed(ids) => forall e | e in b.entries :: e.account !in ids
  }

  function Apply(b: Books, op: Op): Books {
    match op
    case Posted(txn, req) => Post(b, txn, req)
    case Opened(id, account) => b.(accounts := b.accounts[id := account])
    case Closed(ids) => b.(accounts := b.accounts - ids)
  }

  function Replay(b: Books, ops: seq<Op>): Books {
    if ops == [] then b else Apply(Replay(b, ops[..|ops| - 1]), ops[|ops| - 1])
  }

  /** Every operation was acceptable at its turn. */
  ghost predicate Legal(b: Books, ops: seq<Op>) {
    ops != [] ==> Legal(b, ops[..|ops| - 1]) && Allowed(Replay(b, ops[..|ops| - 1]), ops[|ops| - 1])
  }

  lemma ReplayAppend(b: Books, ops: seq<Op>, op: Op)
    ensures Replay(b, ops + [op]) == Apply(Replay(b, ops), op)
    ensures Legal(b, ops + [op]) <==> Legal(b, ops) && Allowed(Replay(b, ops), op)
  {
    assert (ops + [op])[..|ops|] == ops;
  }

  predicate OnGridOps(ops: seq<Op>) {
    forall op | op in ops && op.Posted? :: AllOnGrid(op.req.entries)
  }

  // ---- well-formed books ----

  /** Entries point at stored accounts, sides and types are the five plus two known ones. */
  ghost predicate Proper(b: Books) {
    && (forall e | e in b.entries :: e.account in b.accounts && e.side != OtherSide)
    && (forall id | id in b.accounts :: b.accounts[id].kind != OtherType)
  }

  lemma StoredMember(txn: Id, req: PostRequest, e: LedgerEntry)
    requires e in Stored(txn, req.description, req.entries)
    ensures exists r :: r in req.entries && e == StoredEntry(txn, req.description, r)
  {
    var rows := Stored(txn, req.description, req.entries);
    var i :| 0 <= i < |rows| && rows[i] == e;
    assert req.entries[i] in req.entries;
  }

  lemma ApplyProper(b: Books, op: Op)
    requires Proper(b) && Allowed(b, op)
    ensures Proper(Apply(b, op))
  {
    if op.Posted? {
      var rows := Stored(op.txn, op.req.description, op.req.entries);
      forall e | e in b.entries + rows ensures e.account in b.accounts && e.side != OtherSide {
        if e in rows {
          StoredMember(op.txn, op.req, e);
        }
      }
    }
  }

  lemma {:induction false} ReplayProper(b: Books, ops: seq<Op>)
    requires Proper(b) && Legal(b, ops)
    ensures Proper(Replay(b, ops))
  {
    if ops != [] {
      ReplayProper(b, ops[..|ops| - 1]);
      ApplyProper(Replay(b, ops[..|ops| - 1]), ops[|ops| - 1]);
    }
  }

  // ---- stored amounts ----

  ghost predicate NoNegativeAmount(entries: seq<LedgerEntry>) {
    forall i | 0 <= i < |entries| :: entries[i].amount >= 0
  }

  lemma ApplyAmounts(b: Books, op: Op)
    requires Allowed(b, op) && NoNegativeAmount(b.entries)
    ensures NoNegativeAmount(Apply(b, op).entries)
  {
    if op.Posted? {
      forall i | 0 <= i < |op.req.entries| ensures Money.Round(op.req.entries[i].amount) >= 0 {
        assert op.req.entries[i] in op.req.entries;
        Money.RoundOfPositive(op.req.entries[i].amount);
      }
    }
  }

  /** No legal history stores a negative amount. */
  lemma {:induction false} ReplayAmounts(b: Books, ops: seq<Op>)
    requires Legal(b, ops) && NoNegativeAmount(b.entries)
    ensures NoNegativeAmount(Replay(b, ops).entries)
  {
    if ops != [] {
      ReplayAmounts(b, ops[..|ops| - 1]);
      ApplyAmounts(Replay(b, ops[..|ops| - 1]), ops[|ops| - 1]);
    }
  }

  // ---- balances against openings ----

  /** Opening balances: what the account row held when it appeared, or, for accounts
      already there, the balance not explained by the entries already there. */
  function Openings(b: Books, ops: seq<Op>): map<Id, int> {
    if ops == [] then
      map id | id in b.accounts :: b.accounts[id].balance - StoredNet(b.entries, id, b.accounts[id].kind)
    else
      var before := Openings(b, ops[..|ops| - 1]);
      match ops[|ops| - 1]
      case Posted(_, _) => before
      case Opened(id, account) => before[id := account.balance]
      case Closed(ids) => before - ids
  }

  /** Half-units of drift one posting may leave on an account: k + 1 if it touches the
      account k times and some amount has more than four decimals. */
  function PostingSlack(req: PostRequest, id: Id): nat {
    if id !in Accounts(req.entries) || AllOnGrid(req.entries) then 0 else Touches(req.entries, id) + 1
  }

  function Slack(ops: seq<Op>, id: Id): nat {
    if ops == [] then 0
    else
      var before := Slack(ops[..|ops| - 1], id);
      match ops[|ops| - 1]
      case Posted(_, req) => before + PostingSlack(req, id)
      case Opened(id', _) => if id == id' then 0 else before
      case Closed(ids) => before
  }

  lemma {:induction false} SlackOnGrid(ops: seq<Op>, id: Id)
    requires OnGridOps(ops)
    ensures Slack(ops, id) == 0
  {
    if ops != [] {
      assert forall x | x in ops[..|ops| - 1] :: x in ops;
      assert ops[|ops| - 1] in ops;
      SlackOnGrid(ops[..|ops| - 1], id);
    }
  }

  /** Balance minus opening minus entries. */
  function Drift(b: Books, o: map<Id, int>, id: Id): int
    requires id in b.accounts && id in o
  {
    b.accounts[id].balance - o[id] - StoredNet(b.entries, id, b.accounts[id].kind)
  }

  lemma TouchedMoves(b: Books, txn: Id, req: PostRequest, id: Id)
    requires id in b.accounts && id in Accounts(req.entries)
    ensures var a, rows := b.accounts[id], Stored(txn, req.description, req.entries);
            2 * Abs(Post(b, txn, req).accounts[id].balance - a.balance - StoredNet(rows, id, a.kind))
            <= PostingSlack(req, id)
  {
    var a := b.accounts[id];
    assert Post(b, txn, req).accounts[id] == Settled(a, id, req.entries);
    SettledDrift(a, id, txn, req.description, req.entries);
  }

  lemma UntouchedMoves(b: Books, txn: Id, req: PostRequest, id: Id)
    requires id in b.accounts && id !in Accounts(req.entries)
    ensures Post(b, txn, req).accounts[id] == b.accounts[id]
    ensures StoredNet(Stored(txn, req.description, req.entries), id, b.accounts[id].kind) == 0
  {
    StoredElsewhere(txn, req, id, b.accounts[id].kind);
  }

  lemma StoredElsewhere(txn: Id, req: PostRequest, id: Id, kind: AccountType)
    requires id !in Accounts(req.entries)
    ensures StoredNet(Stored(txn, req.description, req.entries), id, kind) == 0
  {
    var rows := Stored(txn, req.description, req.entries);
    forall e | e in rows ensures e.account != id { StoredMember(txn, req, e); }
    StoredNetUntouched(rows, id, kind);
  }

  lemma PostDrift(b: Books, o: map<Id, int>, txn: Id, req: PostRequest, id: Id)
    requires id in b.accounts && id in o
    ensures Abs(2 * Drift(Post(b, txn, req), o, id) - 2 * Drift(b, o, id)) <= PostingSlack(req, id)
  {
    StoredNetConcat(b.entries, Stored(txn, req.description, req.entries), id, b.accounts[id].kind);
    if id in Accounts(req.entries) {
      TouchedMoves(b, txn, req, id);
    } else {
      UntouchedMoves(b, txn, req, id);
    }
  }

  ghost predicate DriftWithin(b: Books, o: map<Id, int>, ops: seq<Op>) {
    forall id | id in b.accounts :: id in o && 2 * Abs(Drift(b, o, id)) <= Slack(ops, id)
  }

  lemma ApplyDrift(b: Books, o: map<Id, int>, ops: seq<Op>, op: Op, o': map<Id, int>)
    requires Proper(b) && Allowed(b, op) && DriftWithin(b, o, ops)
    requires o' == match op
                   case Posted(_, _) => o
                   case Opened(id, account) => o[id := account.balance]
                   case Closed(ids) => o - ids
    ensures DriftWithin(Apply(b, op), o', ops + [op])
  {
    assert (ops + [op])[..|ops|] == ops;
    var t := Apply(b, op);
    forall id | id in t.accounts
      ensures id in o' && 2 * Abs(Drift(t, o', id)) <= Slack(ops + [op], id)
    {
      match op
      case Posted(txn, req) => PostDrift(b, o, txn, req, id);
      case Opened(id', account) =>
        if id == id' {
          StoredNetUntouched(b.entries, id, account.kind);
        }
      case Closed(_) =>
    }
  }

  /** After any legal history every balance equals its opening plus the type-signed
      stored entries, up to the per-posting rounding bounds added up. */
  lemma {:induction false} ReplayBalances(b: Books, ops: seq<Op>)
    requires Proper(b) && Legal(b, ops)
    ensures DriftWithin(Replay(b, ops), Openings(b, ops), ops)
  {
    if ops != [] {
      var init, op := ops[..|ops| - 1], ops[|ops| - 1];
      ReplayBalances(b, init);
      ReplayProper(b, init);
      ApplyDrift(Replay(b, init), Openings(b, init), init, op, Openings(b, ops));
      assert ops == init + [op];
    }
  }

  /** On four-decimal amounts no posting is lost or counted twice: every balance is its
      opening plus the type-signed sum of the entries against it. */
  lemma ReplayBalancesExact(b: Books, ops: seq<Op>)
    requires Proper(b) && Legal(b, ops) && OnGridOps(ops)
    ensures var t := Replay(b, ops);
            forall id | id in t.accounts ::
              && id in Openings(b, ops)
              && t.accounts[id].balance
                 == Openings(b, ops)[id] + StoredNet(t.entries, id, t.accounts[id].kind)
  {
    ReplayBalances(b, ops);
    forall id { SlackOnGrid(ops, id); }
  }

  // ---- debits against credits ----

  function OffGridIn(op: Op): nat {
    match op
    case Posted(_, req) => if AllOnGrid(req.entries) then 0 else |req.entries|
    case Opened(_, _) => 0
    case Closed(_) => 0
  }

  /** Entries inserted by postings with amounts beyond four decimals. */
  function OffGridEntries(ops: seq<Op>): nat {
    if ops == [] then 0
    else
      OffGridEntries(ops[..|ops| - 1]) + OffGridIn(ops[|ops| - 1])
  }

  lemma ApplyImbalance(b: Books, op: Op)
    requires Allowed(b, op)
    ensures 2 * Abs(StoredImbalance(Apply(b, op).entries) - StoredImbalance(b.entries)) <= OffGridIn(op)
  {
    match op
    case Posted(txn, req) =>
      var rows := Stored(txn, req.description, req.entries);
      assert Apply(b, op).entries == b.entries + rows;
      PostingImbalance(txn, req);
      ImbalanceConcat(b.entries, rows);
      assert StoredImbalance(b.entries + rows) - StoredImbalance(b.entries) == StoredImbalance(rows);
    case _ => assert Apply(b, op).entries == b.entries;
  }

  /** The imbalance lies within n half-units of where it started. */
  ghost predicate ImbalanceWithin(start: int, b: Books, n: nat) {
    2 * Abs(StoredImbalance(b.entries) - start) <= n
  }

  lemma ImbalanceStep(start: int, b: Books, op: Op, n: nat)
    requires Allowed(b, op) && ImbalanceWithin(start, b, n)
    ensures ImbalanceWithin(start, Apply(b, op), n + OffGridIn(op))
  {
    ApplyImbalance(b, op);
  }

  lemma {:induction false} ReplayWithin(start: int, b: Books, ops: seq<Op>)
    requires Legal(b, ops) && start == StoredImbalance(b.entries)
    ensures ImbalanceWithin(start, Replay(b, ops), OffGridEntries(ops))
  {
    if ops != [] {
      ReplayWithin(start, b, ops[..|ops| - 1]);
      ImbalanceStep(start, Replay(b, ops[..|ops| - 1]), ops[|ops| - 1], OffGridEntries(ops[..|ops| - 1]));
    }
  }

  /** Stored debits and credits part by at most half a unit per such entry. */
  lemma ReplayImbalance(b: Books, ops: seq<Op>)
    requires Legal(b, ops)
    ensures 2 * Abs(StoredImbalance(Replay(b, ops).entries) - StoredImbalance(b.entries)) <= OffGridEntries(ops)
  {
    ReplayWithin(StoredImbalance(b.entries), b, ops);
  }

  lemma {:induction false} OffGridEntriesOnGrid(ops: seq<Op>)
    requires OnGridOps(ops)
    ensures OffGridEntries(ops) == 0
  {
    if ops != [] {
      assert forall x | x in ops[..|ops| - 1] :: x in ops;
      assert ops[|ops| - 1] in ops;
      OffGridEntriesOnGrid(ops[..|ops| - 1]);
    }
  }

  /** On four-decimal amounts stored debits keep equal to stored credits. */
  lemma ReplayStaysBalanced(b: Books, ops: seq<Op>)
    requires StoredImbalance(b.entries) == 0 && Legal(b, ops) && OnGridOps(ops)
    ensures StoredImbalance(Replay(b, ops).entries) == 0
  {
    ReplayImbalance(b, ops);
    OffGridEntriesOnGrid(ops);
  }

  // ---- trial balance ----

  predicate DebitNormal(kind: AccountType) {
    kind == Asset || kind == Expense
  }

  ghost function Gains(b: Books, o: map<Id, int>, debitSide: bool): map<Id, int>
    requires b.accounts.Keys <= o.Keys
  {
    map id | id in b.accounts ::
      if DebitNormal(b.accounts[id].kind) == debitSide then b.accounts[id].balance - o[id] else 0
  }

  /** What the accounts of one side gained since opening. */
  ghost function Column(b: Books, o: map<Id, int>, debitSide: bool): int
    requires b.accounts.Keys <= o.Keys
  {
    Sum(Gains(b, o, debitSide))
  }

  /** Entry totals per account, counted towards debit. */
  ghost function Ledgered(accounts: map<Id, Account>, entries: seq<LedgerEntry>): map<Id, int> {
    map id | id in accounts ::
      var net := StoredNet(entries, id, accounts[id].kind);
      if DebitNormal(accounts[id].kind) then net else -net
  }

  lemma LedgeredLast(accounts: map<Id, Account>, entries: seq<LedgerEntry>, e: LedgerEntry)
    requires e.account in accounts && e.side != OtherSide && accounts[e.account].kind != OtherType
    ensures var m := Ledgered(accounts, entries);
            Ledgered(accounts, entries + [e])
            == m[e.account := m[e.account] + if e.side == Debit then e.amount else -e.amount]
  {
    assert (entries + [e])[..|entries|] == entries;
  }

  /** Summing the entries by account or in one go gives the same. */
  lemma {:induction false} DoubleCounting(accounts: map<Id, Account>, entries: seq<LedgerEntry>)
    requires Proper(Books(accounts, entries))
    ensures Sum(Ledgered(accounts, entries)) == StoredImbalance(entries)
  {
    if entries == [] {
      SumZero<Id>(Ledgered(accounts, entries));
    } else {
      var init, e := entries[..|entries| - 1], entries[|entries| - 1];
      assert e in entries && entries == init + [e];
      DoubleCounting(accounts, init);
      LedgeredLast(accounts, init, e);
      var m := Ledgered(accounts, init);
      SumUpdate<Id>(m, e.account, m[e.account] + if e.side == Debit then e.amount else -e.amount);
    }
  }

  lemma ColumnsAgree(b: Books, o: map<Id, int>)
    requires Proper(b) && b.accounts.Keys <= o.Keys
    requires forall id | id in b.accounts :: Drift(b, o, id) == 0
    ensures Column(b, o, true) == Column(b, o, false) + StoredImbalance(b.entries)
  {
    DoubleCounting(b.accounts, b.entries);
    SumPlus<Id>(Ledgered(b.accounts, b.entries), Gains(b, o, false), Gains(b, o, true));
  }

  /** In every state reached by a legal history with four-decimal amounts, assets and
      expenses have gained together exactly what liabilities, revenue and equity have. */
  lemma TrialBalance(b: Books, ops: seq<Op>)
    requires Proper(b) && StoredImbalance(b.entries) == 0 && Legal(b, ops) && OnGridOps(ops)
    ensures Replay(b, ops).accounts.Keys <= Openings(b, ops).Keys
    ensures Column(Replay(b, ops), Openings(b, ops), true) == Column(Replay(b, ops), Openings(b, ops), false)
  {
    assert Replay(b, ops).accounts.Keys <= Openings(b, ops).Keys
        && forall id | id in Replay(b, ops).accounts :: Drift(Replay(b, ops), Openings(b, ops), id) == 0 by {
      ReplayBalancesExact(b, ops);
    }
    ReplayStaysBalanced(b, ops);
    ReplayProper(b, ops);
    ColumnsAgree(Replay(b, ops), Openings(b, ops));
  }
}
