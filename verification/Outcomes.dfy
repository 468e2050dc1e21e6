/** What each call accepts, stores and answers, said of the request and the tables alone. */
module Outcomes {
  import opened Common
  import opened Dashboard
  import opened Tables
  import Accounts
  import Audit
  import Auth
  import Backend
  import Ledger
  import Money
  import Outbox
  import Records
  import Tokens
  import Users

  // ---- postings ----

  /** What makes a request a balanced posting. */
  ghost predicate BalancedPosting(es: seq<Ledger.EntryRequest>) {
    && |es| >= 2
    && (forall i | 0 <= i < |es| :: es[i].amount > 0.0 && (es[i].side == Debit || es[i].side == Credit))
    && Ledger.Total(es, Debit) == Ledger.Total(es, Credit)
  }

  lemma BalancedIsValid(req: Ledger.PostRequest)
    ensures Ledger.Valid(req) <==> BalancedPosting(req.entries)
  {
    var es := req.entries;
    if Ledger.Valid(req) {
      forall i | 0 <= i < |es| ensures es[i].amount > 0.0 && (es[i].side == Debit || es[i].side == Credit) {
        assert es[i] in es;
      }
    }
  }

  /** Every accepted posting has two entries or more, positive amounts, known sides and
      equal totals; every request that lacks one of these, or names a missing account, is
      a validation error and leaves the tables alone. */
  lemma OnlyBalancedPostingsPass(s: State, auditing: bool, req: Ledger.PostRequest, faultAt: nat)
    ensures var (t, r) := Ledger.PostTransaction(s, auditing, req, faultAt);
            && (r.Ok? ==> BalancedPosting(req.entries) && forall e | e in req.entries :: e.account in s.accounts)
            && (!BalancedPosting(req.entries) ==> t == s && r.Err? && r.error.Validation?)
            && (BalancedPosting(req.entries) && faultAt != 1
                && (exists e :: e in req.entries && e.account !in s.accounts)
                ==> t == s && r == Err(Validation("one or more account IDs are invalid")))
  {
    BalancedIsValid(req);
    if e :| e in req.entries && e.account !in s.accounts {
      assert e.account in Ledger.Accounts(req.entries);
    }
  }

  /** A zero or negative amount anywhere is refused. */
  lemma NonPositiveAmountRefused(s: State, auditing: bool, req: Ledger.PostRequest, faultAt: nat, i: nat)
    requires i < |req.entries| && req.entries[i].amount <= 0.0
    ensures var (t, r) := Ledger.PostTransaction(s, auditing, req, faultAt);
            t == s && r.Err? && r.error.Validation?
  {
    OnlyBalancedPostingsPass(s, auditing, req, faultAt);
  }

  /** The message follows the first entry that is wrong: amount before side. */
  lemma ComplaintIsFirst(s: State, auditing: bool, req: Ledger.PostRequest, faultAt: nat, i: nat)
    requires |req.entries| >= 2 && i < |req.entries|
    requires forall j | 0 <= j < i :: req.entries[j].amount > 0.0 && req.entries[j].side != OtherSide
    requires req.entries[i].amount <= 0.0 || req.entries[i].side == OtherSide
    ensures Ledger.PostTransaction(s, auditing, req, faultAt).1
         == Err(Validation(if req.entries[i].amount <= 0.0 then "all entry amounts must be greater than zero"
                           else "entry_type must be 'debit' or 'credit'"))
  {
    BalancedIsValid(req);
    var b := Ledger.FirstBad(req.entries);
    assert b == i;
  }

  /** The rows of an accepted posting: one per entry in order, under one new transaction id,
      amounts rounded, the currency defaulted; the caller gets the unrounded amounts. */
  lemma PostedRows(s: State, auditing: bool, req: Ledger.PostRequest, faultAt: nat, i: nat)
    requires Ledger.PostTransaction(s, auditing, req, faultAt).1.Ok? && i < |req.entries|
    ensures var (t, r) := Ledger.PostTransaction(s, auditing, req, faultAt);
            var e := req.entries[i];
            var currency := if e.currency == "" then "INR" else e.currency;
            && |t.entries| == |s.entries| + |req.entries| && |r.value| == |req.entries|
            && t.entries[..|s.entries|] == s.entries
            && t.entries[|s.entries| + i]
               == LedgerEntry(s.next, e.account, e.side, Money.Round(e.amount), currency, req.description)
            && r.value[i] == Ledger.CreatedEntry(s.next, e.account, e.side, e.amount, currency, req.description)
            && t.users == s.users && t.records == s.records && t.tokens == s.tokens
            && t.accounts.Keys == s.accounts.Keys
  {
  }

  /** A column takes fifteen digits before the point and no more. */
  lemma ColumnWidth(x: real)
    requires x >= 0.0
    ensures Money.Fits(Money.Round(x)) <==> x < 10_000_000_000_000_000_000.0 - 0.5
  {
  }

  // ---- signing in ----

  /** `First` by email: the smallest id among the users with that email. */
  ghost predicate IsFirst(users: map<Id, User>, email: string, id: Id) {
    && id in users && users[id].email == email
    && forall k | k in users && users[k].email == email :: id <= k
  }

  lemma FirstIsFound(users: map<Id, User>, email: string, id: Id)
    ensures Tokens.FindUser(users, email) == Some(id) <==> IsFirst(users, email, id)
  {
    var ids := set k | k in users && users[k].email == email;
    if ids != {} {
      assert Least(ids) in ids;
      forall k | k in users && users[k].email == email ensures Least(ids) <= k {
        assert k in ids;
      }
    }
    assert id in users && users[id].email == email ==> id in ids;
  }

  /** A sign-in succeeds exactly when neither the user query nor the token insert fails
      and the user found by that email is active and has that password; otherwise no table
      changes. */
  lemma SignInIff(s: State, cfg: Tokens.Config, email: string, password: string, now: Time, faultAt: nat)
    ensures var (t, r) := Auth.Login(s, cfg, email, password, now, faultAt);
            && (r.Ok? <==>
                  && faultAt != 1 && faultAt != 2
                  && exists id: Id :: IsFirst(s.users, email, id) && s.users[id].active
                                      && s.users[id].password == Digest(password))
            && (r.Err? ==> t == s)
  {
    var found := Tokens.FindUser(s.users, email);
    if found.Some? {
      FirstIsFound(s.users, email, found.value);
    }
    forall id: Id | IsFirst(s.users, email, id) ensures found == Some(id) {
      FirstIsFound(s.users, email, id);
    }
  }

  /** What a wrong password, an inactive user and an unknown email are told. */
  lemma SignInRefusals(s: State, cfg: Tokens.Config, email: string, password: string, now: Time, faultAt: nat, id: Id)
    requires faultAt != 1
    ensures var r := Auth.Login(s, cfg, email, password, now, faultAt).1;
            && ((forall k | k in s.users :: s.users[k].email != email) ==>
                  r == Err(Unauthorized("invalid email or password")))
            && (IsFirst(s.users, email, id) && !s.users[id].active ==>
                  r == Err(Unauthorized("account is deactivated")))
            && (IsFirst(s.users, email, id) && s.users[id].active && s.users[id].password != Digest(password) ==>
                  r == Err(Unauthorized("invalid email or password")))
  {
    FirstIsFound(s.users, email, id);
  }

  // ---- registering ----

  /** A registration succeeds exactly for the two roles anyone may take, an unused email,
      fresh account ids and no failing statement. */
  lemma RegistrationIff(s: State, name: string, email: string, password: string, role: string, faultAt: nat)
    ensures var (t, r) := Users.Register(s, name, email, password, role, faultAt);
            && (r.Ok? <==>
                  && (role == "" || role == "viewer" || role == "analyst")
                  && (forall k | k in s.users :: s.users[k].email != email)
                  && s.next + 1 !in s.accounts && s.next + 2 !in s.accounts && s.next + 3 !in s.accounts
                  && !(1 <= faultAt <= 8))
            && (r.Err? ==> t == s)
            && (role == "admin" ==> r.Err? && r.error.Forbidden?)
  {
    DefaultsFree(s.accounts, s.next, s.next + 1);
  }

  lemma DefaultsFree(accounts: map<Id, Account>, user: Id, first: Id)
    ensures Accounts.WithDefaults(accounts, user, first, 3).Some?
            <==> first !in accounts && first + 1 !in accounts && first + 2 !in accounts
  {
    var none := Accounts.WithDefaults(accounts, user, first, 0);
    var one := Accounts.WithDefaults(accounts, user, first, 1);
    var two := Accounts.WithDefaults(accounts, user, first, 2);
    assert none == Some(accounts);
    assert one.Some? <==> first !in accounts;
    assert two.Some? <==> one.Some? && first + 1 !in accounts;
  }

  /** The rows of a registration. */
  lemma RegisteredRows(s: State, name: string, email: string, password: string, role: string, faultAt: nat)
    requires Users.Register(s, name, email, password, role, faultAt).1.Ok?
    ensures var (t, r) := Users.Register(s, name, email, password, role, faultAt);
            && r.value == s.next
            && t.users == s.users[s.next := User(name, email, Digest(password),
                                                 if role == "" then "viewer" else role, true)]
            && t.accounts.Keys == s.accounts.Keys + {s.next + 1, s.next + 2, s.next + 3}
            && t.accounts[s.next + 1] == Account(s.next, "Cash", Asset, "INR", 0)
            && t.accounts[s.next + 2] == Account(s.next, "Revenue", Revenue, "INR", 0)
            && t.accounts[s.next + 3] == Account(s.next, "Expenses", Expense, "INR", 0)
            && t.entries == s.entries && t.records == s.records && t.tokens == s.tokens
  {
    Accounts.DefaultsBelongToUser(s.accounts, s.next, s.next + 1, 3);
    var after := Users.Register(s, name, email, password, role, faultAt).0.accounts;
    assert after[s.next + 1 + 0] == Accounts.DefaultAccount(s.next, 0);
    assert after[s.next + 1 + 1] == Accounts.DefaultAccount(s.next, 1);
    assert after[s.next + 1 + 2] == Accounts.DefaultAccount(s.next, 2);
  }

  /** Who registered signs in with the registered password, and with no other. */
  lemma RegisteredUserSignsIn(s: State, cfg: Tokens.Config, name: string, email: string, password: string,
                              role: string, faultAt: nat, attempt: string, now: Time)
    requires Users.Register(s, name, email, password, role, faultAt).1.Ok?
    ensures var t := Users.Register(s, name, email, password, role, faultAt).0;
            Auth.Login(t, cfg, email, attempt, now, 0).1.Ok? <==> attempt == password
  {
    RegistrationIff(s, name, email, password, role, faultAt);
    RegisteredRows(s, name, email, password, role, faultAt);
    var t := Users.Register(s, name, email, password, role, faultAt).0;
    assert IsFirst(t.users, email, s.next);
    SignInIff(t, cfg, email, attempt, now, 0);
  }

  // ---- changing and deleting users ----

  /** An update succeeds exactly for an existing user, a role of the three or none, and no
      failing statement; it changes the fields named and no others, and never the password
      or the email. */
  lemma UserUpdateIff(s: State, id: Id, c: Users.UserChanges, faultAt: nat)
    ensures var (t, r) := Users.UpdateUser(s, id, c, faultAt);
            && (r.Ok? <==>
                  && id in s.users && !(1 <= faultAt <= 6)
                  && (c.role.KeepRole?
                      || (c.role.SetRole? && (c.role.role == "viewer" || c.role.role == "analyst"
                                              || c.role.role == "admin"))))
            && (r.Ok? ==>
                  var u := s.users[id];
                  && t.users == s.users[id := User(if c.name.Some? then c.name.value else u.name, u.email, u.password,
                                                   if c.role.SetRole? then c.role.role else u.role,
                                                   if c.active.Some? then c.active.value else u.active)]
                  && r.value == t.users[id]
                  && t.accounts == s.accounts && t.entries == s.entries && t.records == s.records
                  && t.tokens == s.tokens)
            && (faultAt != 1 && id !in s.users ==> r == Err(NotFound))
  {
  }

  /** A deactivated user can neither sign in nor refresh. */
  lemma DeactivatedIsLockedOut(s: State, cfg: Tokens.Config, id: Id, c: Users.UserChanges, faultAt: nat,
                               password: string, raw: Id, now: Time)
    requires Users.UpdateUser(s, id, c, faultAt).1.Ok? && c.active == Some(false)
    ensures var t := Users.UpdateUser(s, id, c, faultAt).0;
            && (IsFirst(t.users, t.users[id].email, id) ==>
                  Auth.Login(t, cfg, t.users[id].email, password, now, 0).1.Err?)
            && (Tokens.Find(t.tokens, raw).Some? && t.tokens[Tokens.Find(t.tokens, raw).value].owner == id ==>
                  Tokens.Refresh(t, cfg, raw, now).1.Err?)
  {
    UserUpdateIff(s, id, c, faultAt);
    var t := Users.UpdateUser(s, id, c, faultAt).0;
    if IsFirst(t.users, t.users[id].email, id) {
      FirstIsFound(t.users, t.users[id].email, id);
    }
  }

  /** A deletion succeeds exactly for an existing user none of whose accounts has an entry;
      then exactly the user's own rows go. */
  lemma UserDeletionIff(s: State, id: Id, faultAt: nat)
    ensures var (t, r) := Users.DeleteUser(s, id, faultAt);
            && (r.Ok? <==>
                  && id in s.users && !(1 <= faultAt <= 5)
                  && forall e | e in s.entries && e.account in s.accounts :: s.accounts[e.account].owner != id)
            && (r.Err? ==> t == s)
            && (r.Ok? ==>
                  && t.users.Keys == s.users.Keys - {id} && (forall u | u in t.users :: t.users[u] == s.users[u])
                  && (forall a :: a in t.accounts <==> a in s.accounts && s.accounts[a].owner != id)
                  && (forall a | a in t.accounts :: t.accounts[a] == s.accounts[a])
                  && (forall k :: k in t.records <==> k in s.records && s.records[k].owner != id)
                  && (forall k | k in t.records :: t.records[k] == s.records[k])
                  && (forall k :: k in t.tokens <==> k in s.tokens && s.tokens[k].owner != id)
                  && (forall k | k in t.tokens :: t.tokens[k] == s.tokens[k])
                  && t.entries == s.entries)
            && (faultAt != 1 && id !in s.users ==> r == Err(NotFound))
  {
  }

  // ---- accounts ----

  /** A custom account: the five types, a name, a currency of at most three letters, an
      unused key, an existing owner, an opening balance that fits. */
  lemma AccountCreationIff(s: State, id: Option<Id>, owner: Id, name: string, kind: AccountType, currency: string,
                           opening: real, fails: bool)
    ensures var (t, r) := Accounts.CreateAccount(s, id, owner, name, kind, currency, opening, fails);
            var key := if id.Some? then id.value else s.next;
            && (r.Ok? <==>
                  && (kind == Asset || kind == Liability || kind == Equity || kind == Revenue || kind == Expense)
                  && name != "" && !fails && key !in s.accounts && owner in s.users && |currency| <= 3
                  && Money.Fits(Money.Round(opening)))
            && (r.Err? ==> t == s)
            && (r.Ok? ==>
                  && r.value == key
                  && t.accounts == s.accounts[key := Account(owner, name, kind,
                                                             if currency == "" then "INR" else currency,
                                                             Money.Round(opening))]
                  && t.users == s.users && t.entries == s.entries && t.audit == s.audit && t.outbox == s.outbox)
  {
  }

  // ---- records ----

  /** The currencies accepted in any case. */
  predicate KnownCurrency(code: string) {
    Records.Upper(code) == "INR" || Records.Upper(code) == "USD" || Records.Upper(code) == "EUR"
    || Records.Upper(code) == "GBP"
  }

  /** Not one of the six ASCII space characters. */
  predicate Visible(c: char) {
    c != ' ' && c != '\t' && c != '\n' && c != '\U{0B}' && c != '\U{0C}' && c != '\r'
  }

  predicate HasVisibleChar(s: string) {
    exists i | 0 <= i < |s| :: Visible(s[i])
  }

  lemma VisibleIff(c: char)
    ensures Visible(c) <==> !(c == ' ' || '\t' <= c <= '\r')
  {
  }

  lemma BlankIff(s: string)
    ensures Records.Blank(s) <==> !HasVisibleChar(s)
  {
    if Records.Blank(s) {
      forall i | 0 <= i < |s| ensures !Visible(s[i]) {
        assert s[i] in s;
        VisibleIff(s[i]);
      }
    } else {
      var c :| c in s && !(c == ' ' || '\t' <= c <= '\r');
      var i :| 0 <= i < |s| && s[i] == c;
      VisibleIff(s[i]);
    }
  }

  /** Upper case, letter by letter. */
  lemma UpperIs(s: string, i: nat)
    requires i < |s|
    ensures |Records.Upper(s)| == |s|
    ensures Records.Upper(s)[i] == if 'a' <= s[i] <= 'z' then s[i] - 'a' + 'A' else s[i]
  {
  }

  /** A record is created exactly for a known type, a positive amount, a known currency or
      none, a category that is not blank, a date, an existing owner, a value that fits, and
      no failing statement. The row holds what was asked for. */
  lemma RecordCreationIff(s: State, n: Records.NewRecord, faultAt: nat)
    ensures var (t, r) := Records.CreateRecord(s, n, faultAt);
            && (r.Ok? <==>
                  && (n.kind == "income" || n.kind == "expense") && n.amount > 0.0
                  && (n.currency == "" || KnownCurrency(n.currency))
                  && HasVisibleChar(n.category) && n.date.Some?
                  && !(1 <= faultAt <= 4) && n.owner in s.users && s.next !in s.records
                  && Money.Fits(Money.Round(n.amount)))
            && (r.Err? ==> t == s)
            && (r.Ok? ==>
                  && r.value == s.next
                  && t.records == s.records[s.next :=
                       Record(n.owner, Money.Round(n.amount),
                              if n.currency == "" then "INR" else Records.Upper(n.currency),
                              if n.kind == "income" then Income else Outlay, n.category, n.date.value, n.notes, false)]
                  && t.users == s.users && t.accounts == s.accounts && t.entries == s.entries && t.tokens == s.tokens)
  {
    BlankIff(n.category);
  }

  /** The fields of an update map that are acceptable. */
  predicate GoodChanges(c: Records.RecordChanges) {
    && (c.kind.Some? ==> c.kind.value.Text? && (c.kind.value.s == "income" || c.kind.value.s == "expense"))
    && (c.amount.Some? ==>
          || (c.amount.value.Number? && c.amount.value.r > 0.0)
          || (c.amount.value.Text? && c.amount.value.decimal.Some? && c.amount.value.decimal.value > 0.0))
    && (c.currency.Some? ==> c.currency.value.Text? && KnownCurrency(c.currency.value.s))
  }

  function NewAmount(c: Records.RecordChanges): real
    requires GoodChanges(c) && c.amount.Some?
  {
    if c.amount.value.Number? then c.amount.value.r else c.amount.value.decimal.value
  }

  /** An update changes the named fields of a visible row and no others. */
  lemma RecordUpdateIff(s: State, id: Id, c: Records.RecordChanges, faultAt: nat)
    ensures var (t, r) := Records.UpdateRecord(s, id, c, faultAt);
            && (r.Ok? ==>
                  && id in s.records && !s.records[id].deleted && GoodChanges(c)
                  && var old' := s.records[id];
                     var row := Record(old'.owner, if c.amount.Some? then Money.Round(NewAmount(c)) else old'.amount,
                                       if c.currency.Some? then Records.Upper(c.currency.value.s) else old'.currency,
                                       if c.kind.Some? then (if c.kind.value.s == "income" then Income else Outlay)
                                       else old'.kind,
                                       if c.category.Some? then c.category.value else old'.category,
                                       if c.date.Some? then c.date.value else old'.date,
                                       if c.notes.Some? then c.notes.value else old'.notes, false);
                     t.records == s.records[id := row] && r.value == row)
            && ((id in s.records && !s.records[id].deleted && GoodChanges(c) && !(1 <= faultAt <= 6)
                 && Money.Fits(if c.amount.Some? then Money.Round(NewAmount(c)) else s.records[id].amount)) ==> r.Ok?)
            && (faultAt != 1 && (id !in s.records || s.records[id].deleted) ==> r == Err(NotFound) && t == s)
            && (!GoodChanges(c) ==> r.Err? && t == s)
  {
  }

  /** A deletion marks a visible row and changes nothing else of it. */
  lemma RecordDeletionIff(s: State, id: Id, faultAt: nat)
    ensures var (t, r) := Records.DeleteRecord(s, id, faultAt);
            && (r.Ok? <==> id in s.records && !s.records[id].deleted && !(1 <= faultAt <= 5))
            && (r.Err? ==> t == s)
            && (r.Ok? ==> t.records == s.records[id := s.records[id].(deleted := true)])
            && (faultAt != 1 && (id !in s.records || s.records[id].deleted) ==> r == Err(NotFound))
  {
  }

  /** What a requested record is worth to a figure. */
  function Worth(n: Records.NewRecord, m: Measure): int {
    match m
    case IncomeSum => if n.kind == "income" then Money.Round(n.amount) else 0
    case ExpenseSum => if n.kind == "expense" then Money.Round(n.amount) else 0
    case TotalSum => Money.Round(n.amount)
    case RowCount => 1
  }

  ghost function Gain(s: State, t: State, axis: Axis, key: Key, m: Measure): int {
    Aggregate(t.records, axis, key, m) - Aggregate(s.records, axis, key, m)
  }

  lemma CreatedRow(s: State, n: Records.NewRecord, faultAt: nat)
    requires Records.CreateRecord(s, n, faultAt).1.Ok?
    ensures var t := Records.CreateRecord(s, n, faultAt).0;
            && s.next !in s.records && s.next in t.records && n.date.Some?
            && t.records == s.records[s.next := t.records[s.next]]
            && var r := t.records[s.next];
               && !r.deleted && r.amount == Money.Round(n.amount) && r.date == n.date.value
               && r.currency == (if n.currency == "" then "INR" else Records.Upper(n.currency))
               && r.category == n.category && (n.kind == "income" || n.kind == "expense")
               && r.kind == if n.kind == "income" then Income else Outlay
  {
  }

  lemma RowAdds(records: map<Id, Record>, id: Id, row: Record, currency: string, year: int, month: int,
                category: string, m: Measure)
    requires id !in records && !row.deleted
    ensures var worth, here := Value(row, m), row.currency == currency;
            var line, monthly := Key(currency, None, None), Key(currency, Some((year, month)), None);
            var perCategory := Key(currency, None, Some(category));
            && Aggregate(records[id := row], ByCurrency, line, m)
               == Aggregate(records, ByCurrency, line, m) + (if here then worth else 0)
            && Aggregate(records[id := row], ByMonth, monthly, m)
               == Aggregate(records, ByMonth, monthly, m)
                  + (if here && row.date.year == year && row.date.month == month then worth else 0)
            && Aggregate(records[id := row], ByCategory, perCategory, m)
               == Aggregate(records, ByCategory, perCategory, m)
                  + (if here && row.category == category then worth else 0)
  {
    ContributionIs(row, currency, year, month, category, m);
    AggregateUpdate(records, id, row, ByCurrency, Key(currency, None, None), m);
    AggregateUpdate(records, id, row, ByMonth, Key(currency, Some((year, month)), None), m);
    AggregateUpdate(records, id, row, ByCategory, Key(currency, None, Some(category)), m);
  }

  /** What one accepted record adds to every figure of every dashboard: its worth, to the
      lines of its own currency, month and category, and nothing elsewhere. */
  lemma AcceptedRecordAdds(s: State, n: Records.NewRecord, faultAt: nat, currency: string, year: int, month: int,
                           category: string, m: Measure)
    requires Records.CreateRecord(s, n, faultAt).1.Ok?
    ensures var t, date := Records.CreateRecord(s, n, faultAt).0, n.date.value;
            var here := (if n.currency == "" then "INR" else Records.Upper(n.currency)) == currency;
            && Gain(s, t, ByCurrency, Key(currency, None, None), m) == (if here then Worth(n, m) else 0)
            && Gain(s, t, ByMonth, Key(currency, Some((year, month)), None), m)
               == (if here && date.year == year && date.month == month then Worth(n, m) else 0)
            && Gain(s, t, ByCategory, Key(currency, None, Some(category)), m)
               == (if here && n.category == category then Worth(n, m) else 0)
  {
    CreatedRow(s, n, faultAt);
    var row := Records.CreateRecord(s, n, faultAt).0.records[s.next];
    RowAdds(s.records, s.next, row, currency, year, month, category, m);
  }

  // ---- the events the calls log ----

  /** Subject and action of the event a call logs. */
  function Subject(s: State, call: Backend.Call): (string, Id, Action) {
    match call
    case UpdateUser(id, _) => ("user", id, Update)
    case DeleteUser(id) => ("user", id, Delete)
    case CreateAccount(_, _, _, _, _) => ("", 0, Create)
    case PostTransaction(_) => ("ledger_transaction", s.next, Create)
    case CreateRecord(_) => ("record", s.next, Create)
    case UpdateRecord(id, _) => ("record", id, Update)
    case DeleteRecord(id) => ("record", id, Delete)
  }

  /** A call that changes the tables logs exactly one event, about its own subject and
      action, with its outbox row; creating an account logs none. */
  lemma CallsLogTheirSubject(s: State, bearer: Tokens.AccessToken, call: Backend.Call, fault: nat)
    ensures var t := Backend.Perform(s, bearer, call, fault);
            if t == s || call.CreateAccount? then t.audit == s.audit && t.outbox == s.outbox
            else
              && |t.audit| == |s.audit| + 1 && |t.outbox| == |s.outbox| + 1
              && var e, (kind, entity, action) := t.audit[|s.audit|], Subject(s, call);
                 && t.audit == s.audit + [AuditEvent(e.id, kind, entity, action)]
                 && t.outbox == s.outbox + [OutboxRow(e.id, false)]
                 && s.next <= e.id < t.next
  {
  }

  /** So do registration and sign-in. */
  lemma RegistrationAndSignInLog(s: State, cfg: Tokens.Config, name: string, email: string, password: string,
                                 role: string, now: Time, faultAt: nat)
    ensures var (t, r) := Users.Register(s, name, email, password, role, faultAt);
            r.Ok? ==> exists e :: t.audit == s.audit + [AuditEvent(e, "user", s.next, Create)]
    ensures var (t, r) := Auth.Login(s, cfg, email, password, now, faultAt);
            r.Ok? && faultAt == 0 ==>
              exists e :: t.audit == s.audit + [AuditEvent(e, "user", Tokens.FindUser(s.users, email).value, SignIn)]
  {
    var (t, r) := Users.Register(s, name, email, password, role, faultAt);
    if r.Ok? {
      assert t.audit == s.audit + [AuditEvent(s.next + 4, "user", s.next, Create)];
    }
    var (t', r') := Auth.Login(s, cfg, email, password, now, faultAt);
    if r'.Ok? && faultAt == 0 {
      assert t'.audit == s.audit + [AuditEvent(s.next + 3, "user", Tokens.FindUser(s.users, email).value, SignIn)];
    }
  }

  // ---- the routes ----

  /** "admin" in any case. */
  lemma AdminRoleIs(role: string)
    ensures Backend.AdminRole(role)
            <==> |role| == 5 && role[0] in {'a', 'A'} && role[1] in {'d', 'D'} && role[2] in {'m', 'M'}
                 && role[3] in {'i', 'I'} && role[4] in {'n', 'N'}
  {
    var lower := Backend.Lower(role);
    if |role| == 5 {
      assert lower == [lower[0], lower[1], lower[2], lower[3], lower[4]];
    }
  }

  /** A call behind the admin guard reaches its service when the bearer's token is genuine,
      unexpired and an admin's, and does nothing otherwise. */
  lemma AdminCallsReachTheirService(cfg: Tokens.Config, w: Backend.World, bearer: Tokens.AccessToken,
                                    call: Backend.Call, fault: nat)
    ensures var t := Backend.Step(cfg, w, Backend.AsAdmin(bearer, call, fault));
            if bearer in w.issued && w.now < bearer.exp && Backend.AdminRole(bearer.role) then
              && t == w.(db := t.db)
              && match call
                 case UpdateUser(id, changes) => t.db == Users.UpdateUser(w.db, id, changes, fault).0
                 case DeleteUser(id) => t.db == Users.DeleteUser(w.db, id, fault).0
                 case CreateAccount(key, name, kind, currency, opening) =>
                   t.db == Accounts.CreateAccount(w.db, key, bearer.user, name, kind, currency, opening, fault != 0).0
                 case PostTransaction(req) => t.db == Ledger.PostTransaction(w.db, true, req, fault).0
                 case CreateRecord(n) => t.db == Records.CreateRecord(w.db, n.(owner := bearer.user), fault).0
                 case UpdateRecord(id, fields) => t.db == Records.UpdateRecord(w.db, id, fields, fault).0
                 case DeleteRecord(id) => t.db == Records.DeleteRecord(w.db, id, fault).0
            else t == w
  {
  }

  /** The other routes: registration, sign-in, refresh, logout with any genuine unexpired
      token, and the clock. */
  lemma OpenRoutesReachTheirService(cfg: Tokens.Config, w: Backend.World, name: string, email: string, password: string,
                                    role: string, raw: Id, bearer: Tokens.AccessToken, fault: nat, elapsed: nat)
    ensures Backend.Step(cfg, w, Backend.Register(name, email, password, role, fault)).db
         == Users.Register(w.db, name, email, password, role, fault).0
    ensures var (t, r) := Auth.Login(w.db, cfg, email, password, w.now, fault);
            Backend.Step(cfg, w, Backend.Login(email, password, fault))
            == Backend.World(t, w.now, if r.Ok? then w.issued + {r.value.0} else w.issued)
    ensures var (t, r) := Tokens.Refresh(w.db, cfg, raw, w.now);
            Backend.Step(cfg, w, Backend.Refresh(raw))
            == Backend.World(t, w.now, if r.Ok? then w.issued + {r.value.0} else w.issued)
    ensures Backend.Step(cfg, w, Backend.Logout(bearer))
         == if bearer in w.issued && w.now < bearer.exp then
              w.(db := w.db.(tokens := Tokens.RevokeUser(w.db.tokens, bearer.user, w.now)))
            else w
    ensures Backend.Step(cfg, w, Backend.Tick(elapsed)) == w.(now := w.now + elapsed)
  {
  }

  /** Logging out stamps the bearer's live tokens and nothing else. */
  lemma LogoutStamps(tokens: map<Id, RefreshToken>, user: Id, now: Time, id: Id)
    requires id in tokens
    ensures var t, t' := tokens[id], Tokens.RevokeUser(tokens, user, now);
            && t'.Keys == tokens.Keys
            && t'[id] == if t.owner == user && t.revoked.None? then t.(revoked := Some(now)) else t
  {
  }

  /** A round of the publisher marks the batch but for the failing entries, and drops the
      expired revoked tokens; with nothing to publish it does neither. */
  lemma PublisherRoundIs(s: State, fetchFails: bool, failing: set<Id>, collectFails: bool, now: Time, i: nat, id: Id)
    requires i < |s.outbox|
    ensures var t := Backend.PublishRound(s, fetchFails, failing, collectFails, now);
            var works := !fetchFails && exists k :: 0 <= k < |s.outbox| && !s.outbox[k].published;
            && t == s.(outbox := t.outbox, tokens := t.tokens) && |t.outbox| == |s.outbox|
            && t.outbox[i].event == s.outbox[i].event
            && (t.outbox[i].published
                <==> s.outbox[i].published
                     || (works && s.outbox[i].event !in failing && Outbox.Unpublished(s.outbox, i) < 50))
            && (id in t.tokens
                <==> id in s.tokens && !(works && !collectFails && s.tokens[id].expires < now
                                         && s.tokens[id].revoked.Some?))
            && (id in t.tokens ==> t.tokens[id] == s.tokens[id])
  {
    Outbox.BatchEmptyIff(s.outbox);
  }

  /** The statements of a posting: lock, one insert per entry, one update per account, the
      audit pair, commit. Each of them undoes everything if it fails. */
  lemma PostingIff(s: State, auditing: bool, req: Ledger.PostRequest, faultAt: nat)
    requires BalancedPosting(req.entries) && forall e | e in req.entries :: e.account in s.accounts
    ensures var n, k := |req.entries|, |set e | e in req.entries :: e.account|;
            Ledger.PostTransaction(s, auditing, req, faultAt).1.Ok?
            <==> && !(1 <= faultAt <= n + k + if auditing then 4 else 2)
                 && (forall e | e in req.entries ::
                       Money.Fits(Money.Round(e.amount)) && |if e.currency == "" then "INR" else e.currency| <= 3)
                 && (forall e | e in req.entries ::
                       Money.Fits(Money.Round(s.accounts[e.account].balance as real
                                              + Ledger.Net(req.entries, e.account, s.accounts[e.account].kind))))
  {
    BalancedIsValid(req);
  }
}
