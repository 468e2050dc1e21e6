/** services/ledger_service.go: what a posting means, as a function of the tables. */
module Ledger {
  import opened Common
  import opened Money
  import opened Tables
  import Audit

  datatype EntryRequest = EntryRequest(account: Id, side: Side, amount: real, currency: string)

  datatype PostRequest = PostRequest(description: string, entries: seq<EntryRequest>)

  /** What PostTransaction returns: the entries with their unrounded amounts. */
  datatype CreatedEntry = CreatedEntry(txn: Id, account: Id, side: Side, amount: real, currency: string,
                                       description: string)

  // ---- validation ----

  const BAD_AMOUNT := "all entry amounts must be greater than zero"
  const BAD_SIDE := "entry_type must be 'debit' or 'credit'"
  const TOO_FEW := "a transaction must have at least 2 entries"
  const UNBALANCED := "transaction is unbalanced"
  const BAD_ACCOUNT := "one or more account IDs are invalid"

  predicate WellFormed(e: EntryRequest) {
    e.amount > 0.0 && e.side != OtherSide
  }

  function Total(es: seq<EntryRequest>, side: Side): real {
    if es == [] then 0.0
    else
      var e := es[|es| - 1];
      Total(es[..|es| - 1], side) + if e.side == side then e.amount else 0.0
  }

  /** The rule of double entry, on the exact amounts. Currencies play no part. */
  predicate Valid(req: PostRequest) {
    && |req.entries| >= 2
    && (forall e | e in req.entries :: WellFormed(e))
    && Total(req.entries, Debit) == Total(req.entries, Credit)
  }

  /** Index of the first entry that is not well formed, |es| if there is none. */
  function FirstBad(es: seq<EntryRequest>): (i: nat)
    ensures i <= |es|
    ensures i < |es| ==> !WellFormed(es[i])
    ensures forall j | 0 <= j < i :: WellFormed(es[j])
  {
    if es == [] then 0
    else if !WellFormed(es[0]) then 0
    else
      var i := FirstBad(es[1..]);
      assert forall j | 0 < j < i + 1 :: es[j] == es[1..][j - 1];
      i + 1
  }

  function Complaint(req: PostRequest): string {
    var i := FirstBad(req.entries);
    if |req.entries| < 2 then TOO_FEW
    else if i == |req.entries| then UNBALANCED
    else if req.entries[i].amount <= 0.0 then BAD_AMOUNT
    else BAD_SIDE
  }

  // ---- the effect of entries on balances ----

  /** Debits raise assets and expenses, credits raise the other three types, and an
      account of any other type is left alone. */
  function Direction(kind: AccountType, side: Side): int {
    match kind
    case Asset | Expense => if side == Debit then 1 else -1
    case Liability | Revenue | Equity => if side == Credit then 1 else -1
    case OtherType => 0
  }

  function Signed(kind: AccountType, side: Side, amount: real): real {
    var d := Direction(kind, side);
    if d == 1 then amount else if d == -1 then -amount else 0.0
  }

  function SignedUnits(kind: AccountType, side: Side, amount: int): int {
    var d := Direction(kind, side);
    if d == 1 then amount else if d == -1 then -amount else 0
  }

  /** What the requested entries add to account `id`. */
  function Net(es: seq<EntryRequest>, id: Id, kind: AccountType): real {
    if es == [] then 0.0
    else
      var e := es[|es| - 1];
      Net(es[..|es| - 1], id, kind) + if e.account == id then Signed(kind, e.side, e.amount) else 0.0
  }

  /** What stored entries add to account `id`. */
  function StoredNet(entries: seq<LedgerEntry>, id: Id, kind: AccountType): int {
    if entries == [] then 0
    else
      var e := entries[|entries| - 1];
      StoredNet(entries[..|entries| - 1], id, kind)
      + if e.account == id then SignedUnits(kind, e.side, e.amount) else 0
  }

  function Accounts(es: seq<EntryRequest>): set<Id> {
    set e | e in es :: e.account
  }

  function CurrencyOf(e: EntryRequest): string {
    if e.currency == "" then "INR" else e.currency
  }

  function StoredEntry(txn: Id, description: string, e: EntryRequest): LedgerEntry {
    LedgerEntry(txn, e.account, e.side, Round(e.amount), CurrencyOf(e), description)
  }

  function Stored(txn: Id, description: string, es: seq<EntryRequest>): (rows: seq<LedgerEntry>)
    ensures |rows| == |es|
    ensures forall i | 0 <= i < |es| :: rows[i] == StoredEntry(txn, description, es[i])
  {
    if es == [] then []
    else Stored(txn, description, es[..|es| - 1]) + [StoredEntry(txn, description, es[|es| - 1])]
  }

  function CreatedFrom(txn: Id, description: string, e: EntryRequest): CreatedEntry {
    CreatedEntry(txn, e.account, e.side, e.amount, CurrencyOf(e), description)
  }

  function Created(txn: Id, description: string, es: seq<EntryRequest>): (rows: seq<CreatedEntry>)
    ensures |rows| == |es|
    ensures forall i | 0 <= i < |es| :: rows[i] == CreatedFrom(txn, description, es[i])
  {
    if es == [] then []
    else Created(txn, description, es[..|es| - 1]) + [CreatedFrom(txn, description, es[|es| - 1])]
  }

  // ---- one posting on the books ----

  datatype Books = Books(accounts: map<Id, Account>, entries: seq<LedgerEntry>)

  function BooksOf(s: State): Books {
    Books(s.accounts, s.entries)
  }

  /** The exact new balance is rounded once, when the account row is written. */
  function Settled(a: Account, id: Id, es: seq<EntryRequest>): Account {
    a.(balance := Round(a.balance as real + Net(es, id, a.kind)))
  }

  function Post(b: Books, txn: Id, req: PostRequest): Books {
    Books(map id | id in b.accounts ::
            if id in Accounts(req.entries) then Settled(b.accounts[id], id, req.entries) else b.accounts[id],
          b.entries + Stored(txn, req.description, req.entries))
  }

  predicate RowFits(e: EntryRequest) {
    Fits(Round(e.amount)) && |CurrencyOf(e)| <= 3
  }

  predicate RowsFit(es: seq<EntryRequest>) {
    forall e | e in es :: RowFits(e)
  }

  /** Every row a posting writes fits its column. */
  predicate Storable(b: Books, req: PostRequest) {
    && RowsFit(req.entries)
    && (forall id | id in Accounts(req.entries) && id in b.accounts ::
          Fits(Settled(b.accounts[id], id, req.entries).balance))
  }

  predicate Postable(b: Books, req: PostRequest) {
    Valid(req) && Accounts(req.entries) <= b.accounts.Keys && Storable(b, req)
  }

  // ---- the service call ----

  /** The database statements of a successful posting: lock, inserts, one update per
      account, the audit pair, commit. */
  function Statements(es: seq<EntryRequest>, auditing: bool): nat {
    1 + |es| + |Accounts(es)| + (if auditing then 2 else 0) + 1
  }

  function Committed(s: State, auditing: bool, txn: Id, event: Id, req: PostRequest): State {
    var b := Post(BooksOf(s), txn, req);
    var t := s.(accounts := b.accounts, entries := b.entries);
    if auditing then Audit.Logged(t, Audit.BuildEvent(event, "ledger_transaction", txn, Create)) else t
  }

  /** PostTransaction as one atomic step; statement `faultAt` fails if it is reached. */
  function PostTransaction(s: State, auditing: bool, req: PostRequest, faultAt: nat)
    : (State, Result<seq<CreatedEntry>>)
  {
    if !Valid(req) then (s, Err(Validation(Complaint(req))))
    else if faultAt == 1 then (s, Err(Internal))
    else if !(Accounts(req.entries) <= s.accounts.Keys) then (s, Err(Validation(BAD_ACCOUNT)))
    else if !Storable(BooksOf(s), req) || 2 <= faultAt <= Statements(req.entries, auditing) then (s, Err(Internal))
    else
      (Committed(s, auditing, s.next, s.next + 1, req).(next := s.next + 2),
       Ok(Created(s.next, req.description, req.entries)))
  }

  /** All or nothing: the tables change exactly when the call succeeds, and it
      succeeds exactly for postable requests whose statements all run. */
  lemma PostTransactionAllOrNothing(s: State, auditing: bool, req: PostRequest, faultAt: nat)
    ensures var (t, r) := PostTransaction(s, auditing, req, faultAt);
            && (r.Err? <==> t == s)
            && (r.Ok? <==> Postable(BooksOf(s), req) && !(1 <= faultAt <= Statements(req.entries, auditing)))
            && (r.Ok? ==> BooksOf(t) == Post(BooksOf(s), s.next, req))
  {
  }
}
