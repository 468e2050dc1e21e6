/** services/account_service.go: the default accounts of a new user and custom accounts
    with an opening balance. */
module Accounts {
  import opened Common
  import opened Money
  import opened Tables

  const DEFAULTS: seq<(string, AccountType)> := [("Cash", Asset), ("Revenue", Revenue), ("Expenses", Expense)]

  function DefaultAccount(user: Id, i: nat): Account
    requires i < |DEFAULTS|
  {
    Account(user, DEFAULTS[i].0, DEFAULTS[i].1, "INR", 0)
  }

  /** The first n default accounts under ids first, first + 1, ...; a taken primary key
      makes the insert fail. */
  function WithDefaults(accounts: map<Id, Account>, user: Id, first: Id, n: nat): Option<map<Id, Account>>
    requires n <= |DEFAULTS|
  {
    if n == 0 then Some(accounts)
    else
      match WithDefaults(accounts, user, first, n - 1)
      case None => None
      case Some(m) =>
        var id := first + n - 1;
        if id in m then None else Some(m[id := DefaultAccount(user, n - 1)])
  }

  lemma {:induction false} FewerDefaults(accounts: map<Id, Account>, user: Id, first: Id, m: nat, n: nat)
    requires m <= n <= |DEFAULTS| && WithDefaults(accounts, user, first, n).Some?
    ensures WithDefaults(accounts, user, first, m).Some?
  {
    if m < n {
      FewerDefaults(accounts, user, first, m, n - 1);
    }
  }

  /** Exactly n new rows, the user's defaults in order; the others stay as they were. */
  lemma {:induction false} DefaultsBelongToUser(accounts: map<Id, Account>, user: Id, first: Id, n: nat)
    requires n <= |DEFAULTS| && WithDefaults(accounts, user, first, n).Some?
    ensures var after := WithDefaults(accounts, user, first, n).value;
            && (forall a :: a in after <==> a in accounts || first <= a < first + n)
            && (forall a | a in accounts :: !(first <= a < first + n) && after[a] == accounts[a])
            && (forall i | 0 <= i < n :: after[first + i] == DefaultAccount(user, i))
  {
    if n > 0 {
      DefaultsBelongToUser(accounts, user, first, n - 1);
    }
  }

  /** CreateDefaultAccounts, as statements `at`, `at + 1` and `at + 2` of the caller. */
  method CreateDefaultAccounts(db: Database, user: Id, at: nat, faultAt: nat) returns (ok: bool)
    modifies db`accounts, db`next
    ensures ok <==> !(at <= faultAt < at + 3) && WithDefaults(old(db.accounts), user, old(db.next), 3).Some?
    ensures ok ==> Some(db.accounts) == WithDefaults(old(db.accounts), user, old(db.next), 3)
    ensures ok ==> db.next == old(db.next) + 3
  {
    ghost var before, first := db.accounts, db.next;
    for i := 0 to 3
      invariant !(at <= faultAt < at + i)
      invariant db.next == first + i
      invariant WithDefaults(before, user, first, i) == Some(db.accounts)
    {
      if WithDefaults(before, user, first, 3).Some? {
        FewerDefaults(before, user, first, i + 1, 3);
      }
      var id := FreshId(db);
      if faultAt == at + i || id in db.accounts {
        return false;
      }
      db.accounts := db.accounts[id := DefaultAccount(user, i)];
    }
    return true;
  }

  /** CreateAccount. The row may bring its own id and any opening balance; the owner is
      the authenticated user, whose row must still exist. */
  function CreateAccount(s: State, id: Option<Id>, owner: Id, name: string, kind: AccountType, currency: string,
                         opening: real, fails: bool): (State, Result<Id>)
  {
    var key := if id.Some? then id.value else s.next;
    var code := if currency == "" then "INR" else currency;
    if kind == OtherType then (s, Err(Validation("invalid account type")))
    else if name == "" then (s, Err(Validation("account name is required")))
    else if fails || key in s.accounts || owner !in s.users || |code| > 3 || !Fits(Round(opening)) then
      (s, Err(Internal))
    else
      (s.(accounts := s.accounts[key := Account(owner, name, kind, code, Round(opening))],
          next := if id.Some? then s.next else s.next + 1),
       Ok(key))
  }

  class AccountService {
    const db: Database

    constructor (db: Database)
      ensures this.db == db
    {
      this.db := db;
    }

    method Create(id: Option<Id>, owner: Id, name: string, kind: AccountType, currency: string, opening: real,
                  fails: bool) returns (r: Result<Id>)
      modifies db`accounts, db`next
      ensures (db.Contents(), r)
           == CreateAccount(old(db.Contents()), id, owner, name, kind, currency, opening, fails)
    {
      if kind == OtherType {
        return Err(Validation("invalid account type"));
      }
      if name == "" {
        return Err(Validation("account name is required"));
      }
      var code := currency;
      if code == "" {
        code := "INR";
      }
      var key := if id.Some? then id.value else db.next;
      var row := Account(owner, name, kind, code, Round(opening));
      if fails || key in db.accounts || owner !in db.users || |code| > 3 || !Fits(row.balance) {
        return Err(Internal);
      }
      if id.None? {
        db.next := db.next + 1;
      }
      db.accounts := db.accounts[key := row];
      return Ok(key);
    }
  }
}
