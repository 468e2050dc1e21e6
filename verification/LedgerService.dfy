/** PostTransaction as the service runs it: validation loop, dedupe, row locks in
    ascending order, working copies shared through a pointer map, one write per
    account in any order, and the audit pair, all undone together. */
module LedgerServices {
  import opened Common
  import opened Money
  import opened Tables
  import opened Ledger
  import opened LedgerFacts
  import Audit

  /** A fetched account row; its balance is an exact decimal until it is written back. */
  class WorkingAccount {
    const id: Id
    const kind: AccountType
    var balance: real

    constructor (id: Id, row: Account)
      ensures this.id == id && this.kind == row.kind && balance == row.balance as real
    {
      this.id, this.kind, this.balance := id, row.kind, row.balance as real;
    }

    /** The switch on the account type: one entry's effect on the working balance. */
    method Book(side: Side, amount: real)
      modifies this
      ensures balance == old(balance) + Signed(kind, side, amount)
    {
      match kind {
        case Asset | Expense =>
          if side == Debit {
            balance := balance + amount;
          } else {
            balance := balance - amount;
          }
        case Liability | Revenue | Equity =>
          if side == Credit {
            balance := balance + amount;
          } else {
            balance := balance - amount;
          }
        case OtherType =>
      }
    }
  }

  /** The requested ids that name a row. */
  function Found(ids: seq<Id>, accounts: map<Id, Account>): set<Id> {
    set id | id in ids && id in accounts
  }

  /** The pointer map: every key leads to the working copy of that account. */
  ghost predicate Points(accountMap: map<Id, WorkingAccount>) {
    forall id | id in accountMap :: accountMap[id].id == id
  }

  ghost predicate Copies(row: WorkingAccount, accounts: map<Id, Account>)
    reads row
  {
    row.id in accounts && row.kind == accounts[row.id].kind && row.balance == accounts[row.id].balance as real
  }

  /** The working balances, and what writing them back would store. */
  ghost function Balances(accountMap: map<Id, WorkingAccount>): map<Id, real>
    reads accountMap.Values
  {
    map id | id in accountMap :: accountMap[id].balance
  }

  ghost function Kinds(accountMap: map<Id, WorkingAccount>): map<Id, AccountType> {
    map id | id in accountMap :: accountMap[id].kind
  }

  /** The shared copies hold what was read plus the net effect of the entries so far. */
  ghost predicate BookedTo(accountMap: map<Id, WorkingAccount>, start: map<Id, real>, es: seq<EntryRequest>)
    reads accountMap.Values
  {
    start.Keys == accountMap.Keys && Balances(accountMap) == Accrued(start, Kinds(accountMap), es)
  }

  lemma CopiesRead(accountMap: map<Id, WorkingAccount>, accounts: map<Id, Account>)
    requires forall id | id in accountMap :: accountMap[id].id == id && Copies(accountMap[id], accounts)
    ensures accountMap.Keys <= accounts.Keys
    ensures Balances(accountMap) == ReadBalances(accounts, accountMap.Keys)
    ensures Kinds(accountMap) == ReadKinds(accounts, accountMap.Keys)
  {
  }

  class LedgerService {
    const db: Database
    const auditing: bool

    constructor (db: Database, auditing: bool)
      ensures this.db == db && this.auditing == auditing
    {
      this.db, this.auditing := db, auditing;
    }

    /** The checks made before any statement runs. */
    method Validate(req: PostRequest) returns (complaint: Option<string>)
      ensures complaint == if Valid(req) then None else Some(Complaint(req))
    {
      if |req.entries| < 2 {
        return Some(TOO_FEW);
      }
      var totalDebits, totalCredits := 0.0, 0.0;
      var es := req.entries;
      for i := 0 to |es|
        invariant forall j | 0 <= j < i :: WellFormed(es[j])
        invariant totalDebits == Total(es[..i], Debit) && totalCredits == Total(es[..i], Credit)
      {
        var e := es[i];
        TotalPrefix(es, i, Debit);
        TotalPrefix(es, i, Credit);
        if e.amount <= 0.0 {
          assert !WellFormed(es[i]) && FirstBad(es) == i;
          return Some(BAD_AMOUNT);
        }
        if e.side != Debit && e.side != Credit {
          assert !WellFormed(es[i]) && FirstBad(es) == i;
          return Some(BAD_SIDE);
        }
        if e.side == Debit {
          totalDebits := totalDebits + e.amount;
        } else {
          totalCredits := totalCredits + e.amount;
        }
      }
      assert es[..|es|] == es;
      if totalDebits != totalCredits {
        return Some(UNBALANCED);
      }
      return None;
    }

    /** Unique account ids, in order of first appearance. */
    method UniqueAccounts(es: seq<EntryRequest>) returns (ids: seq<Id>)
      ensures forall id :: id in ids <==> id in Accounts(es)
      ensures forall i, j | 0 <= i < j < |ids| :: ids[i] != ids[j]
      ensures |ids| == |Accounts(es)|
    {
      ids := [];
      var seen: set<Id> := {};
      for i := 0 to |es|
        invariant forall id :: id in ids <==> id in seen
        invariant seen == Accounts(es[..i])
        invariant forall j, k | 0 <= j < k < |ids| :: ids[j] != ids[k]
        invariant |ids| == |seen|
      {
        assert es[..i + 1] == es[..i] + [es[i]];
        assert Accounts(es[..i + 1]) == Accounts(es[..i]) + {es[i].account};
        if es[i].account !in seen {
          ids := ids + [es[i].account];
          seen := seen + {es[i].account};
        }
      }
      assert es[..|es|] == es;
    }

    /** SELECT ... WHERE id IN ids ORDER BY id ASC FOR UPDATE: the rows that exist, locked
        and read in ascending order of id. */
    method LockAccounts(ids: seq<Id>) returns (rows: seq<WorkingAccount>)
      ensures forall row | row in rows :: fresh(row) && Copies(row, db.accounts)
      ensures forall i, j | 0 <= i < j < |rows| :: rows[i].id < rows[j].id
      ensures (set row | row in rows :: row.id) == Found(ids, db.accounts)
      ensures |rows| == |Found(ids, db.accounts)|
    {
      var present := Sorted(Found(ids, db.accounts));
      rows := [];
      for i := 0 to |present|
        invariant |rows| == i
        invariant forall j | 0 <= j < i ::
                    fresh(rows[j]) && rows[j].id == present[j] && Copies(rows[j], db.accounts)
      {
        assert present[i] in present;
        var row := new WorkingAccount(present[i], db.accounts[present[i]]);
        rows := rows + [row];
      }
      IdsRead(rows, present);
    }

    lemma IdsRead(rows: seq<WorkingAccount>, ids: seq<Id>)
      requires |rows| == |ids| && forall i | 0 <= i < |ids| :: rows[i].id == ids[i]
      ensures (set row | row in rows :: row.id) == set id | id in ids
    {
      forall id | id in ids ensures exists row :: row in rows && row.id == id {
        var i :| 0 <= i < |ids| && ids[i] == id;
        assert rows[i] in rows;
      }
    }

    /** The lookup map by id. */
    method BuildMap(rows: seq<WorkingAccount>) returns (accountMap: map<Id, WorkingAccount>)
      requires forall i, j | 0 <= i < j < |rows| :: rows[i].id < rows[j].id
      ensures Points(accountMap)
      ensures accountMap.Keys == set row | row in rows :: row.id
      ensures forall id | id in accountMap :: accountMap[id] in rows
    {
      accountMap := map[];
      for i := 0 to |rows|
        invariant Points(accountMap)
        invariant accountMap.Keys == set row | row in rows[..i] :: row.id
        invariant forall id | id in accountMap :: accountMap[id] in rows
      {
        assert rows[..i + 1] == rows[..i] + [rows[i]];
        accountMap := accountMap[rows[i].id := rows[i]];
      }
      assert rows[..|rows|] == rows;
    }

    /** Dedupe, lock, check that every id was found, index. */
    method FetchAccounts(es: seq<EntryRequest>, faultAt: nat) returns (r: Result<map<Id, WorkingAccount>>)
      ensures r.Err? ==> r.error == if faultAt == 1 then Internal else Validation(BAD_ACCOUNT)
      ensures r.Ok? <==> faultAt != 1 && Accounts(es) <= db.accounts.Keys
      ensures r.Ok? ==> Points(r.value) && r.value.Keys == Accounts(es) && fresh(r.value.Values)
      ensures r.Ok? ==> Balances(r.value) == ReadBalances(db.accounts, Accounts(es))
      ensures r.Ok? ==> Kinds(r.value) == ReadKinds(db.accounts, Accounts(es))
    {
      var accountIDs := UniqueAccounts(es);
      if faultAt == 1 {
        return Err(Internal);
      }
      ghost var found := Found(accountIDs, db.accounts);
      assert found == Accounts(es) * db.accounts.Keys;
      SameSize(found, Accounts(es));
      var rows := LockAccounts(accountIDs);
      if |rows| != |accountIDs| {
        assert Accounts(es) <= db.accounts.Keys ==> found == Accounts(es);
        return Err(Validation(BAD_ACCOUNT));
      }
      var accountMap := BuildMap(rows);
      CopiesRead(accountMap, db.accounts);
      return Ok(accountMap);
    }

    /** Insert the entries and accumulate their effect in the working copies. */
    method InsertEntries(req: PostRequest, txn: Id, accountMap: map<Id, WorkingAccount>, faultAt: nat,
                         ghost start: map<Id, real>)
      returns (ok: bool, created: seq<CreatedEntry>)
      requires Points(accountMap) && Accounts(req.entries) <= accountMap.Keys && start == Balances(accountMap)
      modifies db`entries, accountMap.Values
      ensures ok <==> RowsFit(req.entries) && !(2 <= faultAt <= 1 + |req.entries|)
      ensures ok ==> db.entries == old(db.entries) + Stored(txn, req.description, req.entries)
      ensures ok ==> created == Created(txn, req.description, req.entries)
      ensures ok ==> Balances(accountMap) == Accrued(start, Kinds(accountMap), req.entries)
    {
      created := [];
      var es := req.entries;
      ghost var rows := db.entries;
      for i := 0 to |es|
        invariant RowsFit(es[..i]) && !(2 <= faultAt < 2 + i)
        invariant Inserted(req, txn, i, rows, db.entries, created)
        invariant BookedTo(accountMap, start, es[..i])
      {
        assert es[i] in es;
        RowsFitPrefix(es, i);
        if faultAt == 2 + i || !RowFits(es[i]) {
          return false, created;
        }
        created := InsertEntry(req, i, txn, accountMap, created, start, rows);
      }
      assert es[..|es|] == es;
      return true, created;
    }

    ghost predicate Inserted(req: PostRequest, txn: Id, n: nat, rows: seq<LedgerEntry>, entries: seq<LedgerEntry>,
                             created: seq<CreatedEntry>)
      requires n <= |req.entries|
    {
      && entries == rows + Stored(txn, req.description, req.entries[..n])
      && created == Created(txn, req.description, req.entries[..n])
    }

    /** One round of the loop: create the row, then book it on the working copy. */
    method InsertEntry(req: PostRequest, i: nat, txn: Id, accountMap: map<Id, WorkingAccount>,
                       created: seq<CreatedEntry>, ghost start: map<Id, real>, ghost rows: seq<LedgerEntry>)
      returns (created': seq<CreatedEntry>)
      requires i < |req.entries|
      requires Points(accountMap) && req.entries[i].account in accountMap
      requires Inserted(req, txn, i, rows, db.entries, created)
      requires BookedTo(accountMap, start, req.entries[..i])
      modifies db`entries, accountMap[req.entries[i].account]
      ensures Inserted(req, txn, i + 1, rows, db.entries, created')
      ensures BookedTo(accountMap, start, req.entries[..i + 1])
    {
      var e := req.entries[i];
      AccruedPrefix(start, Kinds(accountMap), req.entries, i);
      StoredPrefix(txn, req.description, req.entries, i);
      db.entries := db.entries + [StoredEntry(txn, req.description, e)];
      created' := created + [CreatedFrom(txn, req.description, e)];
      accountMap[e.account].Book(e.side, e.amount);
    }

    /** UPDATE accounts SET balance: one statement. */
    method UpdateBalance(id: Id, units: int, fails: bool) returns (ok: bool)
      requires id in db.accounts
      modifies db`accounts
      ensures ok <==> !fails && Fits(units)
      ensures ok ==> db.accounts == old(db.accounts)[id := old(db.accounts)[id].(balance := units)]
    {
      if fails || !Fits(units) {
        return false;
      }
      db.accounts := db.accounts[id := db.accounts[id].(balance := units)];
      return true;
    }

    /** Write every working copy back once, in whatever order the map yields. */
    method Flush(accountMap: map<Id, WorkingAccount>, at: nat, faultAt: nat, ghost target: map<Id, int>)
      returns (ok: bool)
      requires accountMap.Keys <= db.accounts.Keys && target == Units(Balances(accountMap))
      modifies db`accounts
      ensures ok <==> AllFit(target) && !(at <= faultAt < at + |accountMap|)
      ensures ok ==> db.accounts == WriteBack(old(db.accounts), target)
    {
      ghost var accounts := db.accounts;
      var pending := accountMap.Keys;
      var next := at;
      while pending != {}
        invariant pending <= accountMap.Keys && |pending| + next == |accountMap| + at
        invariant !(at <= faultAt < next)
        invariant FlushedBut(accounts, target, pending, db.accounts)
        decreases |pending|
      {
        var id :| id in pending;
        FlushOne(accounts, target, pending, db.accounts, id);
        ok := UpdateBalance(id, Round(accountMap[id].balance), faultAt == next);
        if !ok {
          return;
        }
        pending := pending - {id};
        next := next + 1;
      }
      assert target - {} == target;
      return true;
    }

    /** The rows outside `pending` have been written, and fitted. */
    ghost predicate FlushedBut(before: map<Id, Account>, target: map<Id, int>, pending: set<Id>,
                               now: map<Id, Account>)
    {
      now == WriteBack(before, target - pending) && AllFit(target - pending)
    }

    lemma FlushOne(before: map<Id, Account>, target: map<Id, int>, pending: set<Id>, now: map<Id, Account>, id: Id)
      requires id in pending && id in target && id in before
      requires FlushedBut(before, target, pending, now)
      ensures id in now && (!Fits(target[id]) ==> !AllFit(target))
      ensures Fits(target[id]) ==>
                FlushedBut(before, target, pending - {id}, now[id := now[id].(balance := target[id])])
    {
      var done, next := target - pending, target - (pending - {id});
      assert next == done[id := target[id]];
      assert forall x | x in done :: x in next && next[x] == done[x];
      assert next[id] == target[id];
    }

    /** Insert, accumulate and write back: the effect on the books. */
    method WriteRows(req: PostRequest, txn: Id, accountMap: map<Id, WorkingAccount>, faultAt: nat,
                     ghost before: Books)
      returns (ok: bool, created: seq<CreatedEntry>)
      requires before == Books(db.accounts, db.entries)
      requires Points(accountMap) && accountMap.Keys == Accounts(req.entries) <= before.accounts.Keys
      requires Balances(accountMap) == ReadBalances(before.accounts, Accounts(req.entries))
      requires Kinds(accountMap) == ReadKinds(before.accounts, Accounts(req.entries))
      modifies db`accounts, db`entries, accountMap.Values
      ensures ok <==> Storable(before, req) && !(2 <= faultAt <= 1 + |req.entries| + |Accounts(req.entries)|)
      ensures ok ==> Books(db.accounts, db.entries) == Post(before, txn, req)
      ensures ok ==> created == Created(txn, req.description, req.entries)
    {
      ok, created := InsertEntries(req, txn, accountMap, faultAt, Balances(accountMap));
      ghost var target := Units(Worked(before, req));
      WriteBackIsPost(before, txn, req);
      WorkedFits(before, req);
      if ok {
        ok := Flush(accountMap, 2 + |req.entries|, faultAt, target);
      }
    }

    /** The body of the database transaction. */
    method RunTransaction(req: PostRequest, txn: Id, event: Id, faultAt: nat)
      returns (r: Result<seq<CreatedEntry>>)
      requires Valid(req)
      modifies db`accounts, db`entries, db`audit, db`outbox
      ensures r.Err? ==> r.error == if faultAt != 1 && !(Accounts(req.entries) <= old(db.accounts.Keys))
                                    then Validation(BAD_ACCOUNT) else Internal
      ensures r.Ok? <==> Postable(BooksOf(old(db.Contents())), req)
                         && !(1 <= faultAt <= Statements(req.entries, auditing))
      ensures r.Ok? ==> r.value == Created(txn, req.description, req.entries)
      ensures r.Ok? ==> db.Contents() == Committed(old(db.Contents()), auditing, txn, event, req)
    {
      ghost var before := Books(db.accounts, db.entries);
      var fetched := FetchAccounts(req.entries, faultAt);
      if fetched.Err? {
        return Err(fetched.error);
      }
      var written, created := WriteRows(req, txn, fetched.value, faultAt, before);
      if !written {
        return Err(Internal);
      }
      var committed := LogAndCommit(txn, event, 2 + |req.entries| + |fetched.value|, faultAt);
      return if committed then Ok(created) else Err(Internal);
    }

    /** The audit pair, if auditing is on, then the commit. */
    method LogAndCommit(txn: Id, event: Id, at: nat, faultAt: nat) returns (ok: bool)
      modifies db`audit, db`outbox
      ensures ok <==> !(at <= faultAt <= at + if auditing then 2 else 0)
      ensures ok ==> db.Contents() == if auditing
                     then Audit.Logged(old(db.Contents()),
                                       Audit.BuildEvent(event, "ledger_transaction", txn, Create))
                     else old(db.Contents())
    {
      if auditing {
        var logged := Audit.LogEvent(db, Audit.BuildEvent(event, "ledger_transaction", txn, Create), at, faultAt);
        return logged && faultAt != at + 2;
      }
      return faultAt != at;
    }

    lemma SameSize(part: set<Id>, whole: set<Id>)
      requires part <= whole
      ensures |part| <= |whole|
      ensures |part| == |whole| ==> part == whole
    {
      assert whole == part + (whole - part);
      assert |whole| == |part| + |whole - part|;
    }

    /** Whichever statement fails, the tables end as they began; otherwise they hold
        exactly the posting and its audit pair. */
    method PostTransaction(req: PostRequest, faultAt: nat) returns (r: Result<seq<CreatedEntry>>)
      modifies db
      ensures (db.Contents(), r) == Ledger.PostTransaction(old(db.Contents()), auditing, req, faultAt)
      ensures db.keys == old(db.keys)
    {
      var complaint := Validate(req);
      if complaint.Some? {
        return Err(Validation(complaint.value));
      }
      var before := db.Contents();
      var txn := FreshId(db);
      var event := FreshId(db);
      r := RunTransaction(req, txn, event, faultAt);
      if r.Err? {
        db.Rollback(before);
      }
    }
  }
}
