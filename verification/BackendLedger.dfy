/** The ledger inside the running backend: every action is a legal piece of history. */
module BackendLedger {
  import opened Common
  import opened Tables
  import opened Backend
  import opened LedgerHistory
  import Accounts
  import Ledger
  import LedgerFacts
  import Tokens
  import Users

  function Owned(s: State, user: Id): set<Id> {
    set a | a in s.accounts && s.accounts[a].owner == user
  }

  function OpenedDefaults(user: Id): seq<Op> {
    [Opened(user + 1, Accounts.DefaultAccount(user, 0)),
     Opened(user + 2, Accounts.DefaultAccount(user, 1)),
     Opened(user + 3, Accounts.DefaultAccount(user, 2))]
  }

  /** What a call does to the books. */
  function CallOps(s: State, bearer: Tokens.AccessToken, call: Call, fault: nat): seq<Op> {
    match call
    case PostTransaction(req) =>
      if Ledger.PostTransaction(s, true, req, fault).1.Ok? then [Posted(s.next, req)] else []
    case CreateAccount(key, name, kind, currency, opening) =>
      var (t, r) := Accounts.CreateAccount(s, key, bearer.user, name, kind, currency, opening, fault != 0);
      if r.Ok? then [Opened(r.value, t.accounts[r.value])] else []
    case DeleteUser(id) =>
      if Users.DeleteUser(s, id, fault).1.Ok? then [Closed(Owned(s, id))] else []
    case _ => []
  }

  function ActionOps(w: World, a: Move): seq<Op> {
    match a
    case Register(name, email, password, role, fault) =>
      if Users.Register(w.db, name, email, password, role, fault).1.Ok? then OpenedDefaults(w.db.next) else []
    case AsAdmin(bearer, call, fault) =>
      if AdmittedAsAdmin(w, bearer) then CallOps(w.db, bearer, call, fault) else []
    case _ => []
  }

  /** The ledger history of a run. */
  function History(cfg: Tokens.Config, w: World, run: seq<Move>): seq<Op> {
    if run == [] then []
    else
      var init := run[..|run| - 1];
      History(cfg, w, init) + ActionOps(After(cfg, w, init), run[|run| - 1])
  }

  // ---- each action ----

  lemma OneOp(b: Ledger.Books, op: Op)
    ensures Replay(b, [op]) == Apply(b, op)
    ensures Legal(b, [op]) <==> Allowed(b, op)
  {
    assert [op][..0] == [];
  }

  lemma DefaultOps(b: Ledger.Books, user: Id)
    requires Accounts.WithDefaults(b.accounts, user, user + 1, 3).Some?
    ensures var ops := OpenedDefaults(user);
            && Legal(b, ops)
            && Replay(b, ops) == b.(accounts := Accounts.WithDefaults(b.accounts, user, user + 1, 3).value)
  {
    var ops := OpenedDefaults(user);
    var m1 := Accounts.WithDefaults(b.accounts, user, user + 1, 1);
    var m2 := Accounts.WithDefaults(b.accounts, user, user + 1, 2);
    assert m2.Some? && m1.Some? && Accounts.WithDefaults(b.accounts, user, user + 1, 0) == Some(b.accounts);
    OneOp(b, ops[0]);
    ReplayAppend(b, [ops[0]], ops[1]);
    ReplayAppend(b, [ops[0], ops[1]], ops[2]);
    assert [ops[0]] + [ops[1]] == [ops[0], ops[1]] && ops == [ops[0], ops[1]] + [ops[2]];
    assert Replay(b, [ops[0]]).accounts == m1.value;
    assert Replay(b, [ops[0], ops[1]]).accounts == m2.value;
  }

  lemma RegisterOps(s: State, name: string, email: string, password: string, role: string, fault: nat)
    requires Users.Register(s, name, email, password, role, fault).1.Ok?
    ensures var b, ops := Ledger.BooksOf(s), OpenedDefaults(s.next);
            && Legal(b, ops)
            && Ledger.BooksOf(Users.Register(s, name, email, password, role, fault).0) == Replay(b, ops)
  {
    DefaultOps(Ledger.BooksOf(s), s.next);
  }

  lemma CallIsHistory(s: State, bearer: Tokens.AccessToken, call: Call, fault: nat)
    ensures var b, ops := Ledger.BooksOf(s), CallOps(s, bearer, call, fault);
            && Legal(b, ops)
            && Ledger.BooksOf(Perform(s, bearer, call, fault)) == Replay(b, ops)
  {
    var b, ops := Ledger.BooksOf(s), CallOps(s, bearer, call, fault);
    if ops != [] {
      OneOp(b, ops[0]);
    }
  }

  lemma {:induction false} ActionIsHistory(cfg: Tokens.Config, w: World, a: Move)
    ensures var b, ops := Ledger.BooksOf(w.db), ActionOps(w, a);
            Legal(b, ops) && Ledger.BooksOf(Step(cfg, w, a).db) == Replay(b, ops)
  {
    match a
    case Register(name, email, password, role, fault) =>
      if Users.Register(w.db, name, email, password, role, fault).1.Ok? {
        RegisterOps(w.db, name, email, password, role, fault);
      }
    case AsAdmin(bearer, call, fault) => CallIsHistory(w.db, bearer, call, fault);
    case _ =>
  }

  // ---- whole runs ----

  lemma {:induction false} ReplayConcat(b: Ledger.Books, xs: seq<Op>, ys: seq<Op>)
    ensures Replay(b, xs + ys) == Replay(Replay(b, xs), ys)
    ensures Legal(b, xs + ys) <==> Legal(b, xs) && Legal(Replay(b, xs), ys)
  {
    if ys == [] {
      assert xs + ys == xs;
    } else {
      var init, y := ys[..|ys| - 1], ys[|ys| - 1];
      ReplayConcat(b, xs, init);
      ReplayAppend(b, xs + init, y);
      assert xs + ys == (xs + init) + [y];
    }
  }

  /** The books after any run are the replay of its legal history. */
  lemma {:induction false} BooksAreHistory(cfg: Tokens.Config, w: World, run: seq<Move>)
    ensures var b, ops := Ledger.BooksOf(w.db), History(cfg, w, run);
            Legal(b, ops) && Ledger.BooksOf(After(cfg, w, run).db) == Replay(b, ops)
  {
    if run != [] {
      var init, a := run[..|run| - 1], run[|run| - 1];
      BooksAreHistory(cfg, w, init);
      ActionIsHistory(cfg, After(cfg, w, init), a);
      ReplayConcat(Ledger.BooksOf(w.db), History(cfg, w, init), ActionOps(After(cfg, w, init), a));
    }
  }

  /** Every posting request in the run stays on the grid of four decimals. */
  predicate OnGridRun(run: seq<Move>) {
    forall a | a in run && a.AsAdmin? && a.call.PostTransaction? :: LedgerFacts.AllOnGrid(a.call.req.entries)
  }

  lemma {:induction false} HistoryOnGrid(cfg: Tokens.Config, w: World, run: seq<Move>)
    requires OnGridRun(run)
    ensures OnGridOps(History(cfg, w, run))
  {
    if run != [] {
      assert forall a | a in run[..|run| - 1] :: a in run;
      assert run[|run| - 1] in run;
      HistoryOnGrid(cfg, w, run[..|run| - 1]);
    }
  }

  /** Books that are properly referenced and whose stored debits equal the credits. */
  ghost predicate Sound(b: Ledger.Books) {
    Proper(b) && LedgerFacts.StoredImbalance(b.entries) == 0
  }

  /** Trial balance in every reachable state: registrations, custom accounts with opening
      balances, postings, failed postings and user deletions included. */
  lemma {:induction false} TrialBalanceHolds(cfg: Tokens.Config, w: World, run: seq<Move>)
    requires Sound(Ledger.BooksOf(w.db)) && OnGridRun(run)
    ensures var b, o := Ledger.BooksOf(After(cfg, w, run).db), Openings(Ledger.BooksOf(w.db), History(cfg, w, run));
            && b.accounts.Keys <= o.Keys
            && Column(b, o, true) == Column(b, o, false)
  {
    BooksAreHistory(cfg, w, run);
    HistoryOnGrid(cfg, w, run);
    TrialBalance(Ledger.BooksOf(w.db), History(cfg, w, run));
  }

  /** Without the grid: every balance lies within the added rounding bounds of its opening
      plus its stored entries. */
  lemma BalancesWithinDrift(cfg: Tokens.Config, w: World, run: seq<Move>)
    requires Proper(Ledger.BooksOf(w.db))
    ensures var ops := History(cfg, w, run);
            DriftWithin(Ledger.BooksOf(After(cfg, w, run).db), Openings(Ledger.BooksOf(w.db), ops), ops)
  {
    BooksAreHistory(cfg, w, run);
    ReplayBalances(Ledger.BooksOf(w.db), History(cfg, w, run));
  }

  /** An account with entries survives every run: its owner cannot be deleted. */
  lemma EntriesKeepTheirAccounts(cfg: Tokens.Config, w: World, run: seq<Move>)
    requires Proper(Ledger.BooksOf(w.db))
    ensures var s := After(cfg, w, run).db; forall e | e in s.entries :: e.account in s.accounts
  {
    BooksAreHistory(cfg, w, run);
    ReplayProper(Ledger.BooksOf(w.db), History(cfg, w, run));
  }

  /** No backend run stores a negative amount. */
  lemma AmountsStayNonNegative(cfg: Tokens.Config, w: World, run: seq<Move>)
    requires forall i | 0 <= i < |w.db.entries| :: w.db.entries[i].amount >= 0
    ensures var entries := After(cfg, w, run).db.entries;
            forall i | 0 <= i < |entries| :: entries[i].amount >= 0
  {
    BooksAreHistory(cfg, w, run);
    ReplayAmounts(Ledger.BooksOf(w.db), History(cfg, w, run));
  }
}
