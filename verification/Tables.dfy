/** The rows of every table, the snapshot of all tables, and the database object
    the services write to. */
module Tables {
  import opened Common

  type Id = nat

  /** Points on one monotone clock, in nanoseconds. */
  type Time = nat

  // ---- users ----

  datatype User = User(name: string, email: string, password: Digest<string>, role: string, active: bool)

  // ---- double-entry ledger ----

  datatype AccountType = Asset | Liability | Equity | Revenue | Expense | OtherType

  /** balance counts units of 0.0001. */
  datatype Account = Account(owner: Id, name: string, kind: AccountType, currency: string, balance: int)

  datatype Side = Debit | Credit | OtherSide

  datatype LedgerEntry = LedgerEntry(txn: Id, account: Id, side: Side, amount: int, currency: string,
                                     description: string)

  // ---- financial records ----

  datatype RecordKind = Income | Outlay

  datatype Date = Date(year: int, month: int, day: int)

  datatype Record = Record(owner: Id, amount: int, currency: string, kind: RecordKind, category: string,
                           date: Date, notes: string, deleted: bool)

  // ---- refresh tokens and idempotency keys ----

  datatype RefreshToken = RefreshToken(owner: Id, hash: Digest<Id>, family: Id, expires: Time,
                                       revoked: Option<Time>, replacedBy: Option<Id>)

  datatype KeyRow = KeyRow(user: Option<Id>, hash: Digest<string>, code: int, body: string, expires: Time)

  // ---- audit trail and outbox ----

  datatype Action = Create | Update | Delete | SignIn

  datatype AuditEvent = AuditEvent(id: Id, entityType: string, entity: Id, action: Action)

  datatype OutboxRow = OutboxRow(event: Id, published: bool)

  /** All tables but the idempotency keys, which only the middleware and the
      cleanup touch. `next` is the supply of fresh identifiers: uuid.New() and the
      random refresh tokens are values no committed row has used. What a transaction
      drew before it rolled back was never stored and may be drawn again. Rows of `entries`,
      `audit` and `outbox` stand in creation order. */
  datatype State = State(
    users: map<Id, User>,
    accounts: map<Id, Account>,
    entries: seq<LedgerEntry>,
    records: map<Id, Record>,
    tokens: map<Id, RefreshToken>,
    audit: seq<AuditEvent>,
    outbox: seq<OutboxRow>,
    next: Id)

  const EMPTY := State(map[], map[], [], map[], map[], [], [], 0)

  class Database {
    var users: map<Id, User>
    var accounts: map<Id, Account>
    var entries: seq<LedgerEntry>
    var records: map<Id, Record>
    var tokens: map<Id, RefreshToken>
    var audit: seq<AuditEvent>
    var outbox: seq<OutboxRow>
    var next: Id
    var keys: map<string, KeyRow>

    function Contents(): State
      reads this
    {
      State(users, accounts, entries, records, tokens, audit, outbox, next)
    }

    constructor ()
      ensures Contents() == EMPTY && keys == map[]
    {
      users, accounts, entries, records, tokens := map[], map[], [], map[], map[];
      audit, outbox, next, keys := [], [], 0, map[];
    }

    /** A transaction that fails puts back what it found. */
    method Rollback(before: State)
      modifies this
      ensures Contents() == before && keys == old(keys)
    {
      users, accounts, entries, records := before.users, before.accounts, before.entries, before.records;
      tokens, audit, outbox, next := before.tokens, before.audit, before.outbox, before.next;
    }
  }

  /** uuid.New(). */
  method FreshId(db: Database) returns (id: Id)
    modifies db`next
    ensures id == old(db.next) && db.next == id + 1
  {
    id := db.next;
    db.next := id + 1;
  }
}
