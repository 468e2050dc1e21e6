/** What holds in every state the backend can reach from a safe one. */
module BackendSafety {
  import opened Common
  import opened Tables
  import opened Backend
  import opened BackendLedger
  import opened BackendTokens
  import opened BackendTrail
  import opened LedgerTrail
  import Accounts
  import Audit
  import BackendRoles
  import Ledger
  import LedgerFacts
  import LedgerHistory
  import Money
  import Tokens
  import Users

  /** Every record and account belongs to a stored user. */
  ghost predicate OwnersExist(s: State) {
    && (forall r | r in s.records :: s.records[r].owner in s.users)
    && (forall a | a in s.accounts :: s.accounts[a].owner in s.users)
  }

  lemma RegisterKeepsOwners(s: State, name: string, email: string, password: string, role: string, fault: nat)
    requires OwnersExist(s)
    ensures OwnersExist(Users.Register(s, name, email, password, role, fault).0)
  {
    var (t, r) := Users.Register(s, name, email, password, role, fault);
    if r.Ok? {
      Accounts.DefaultsBelongToUser(s.accounts, s.next, s.next + 1, 3);
      forall a | a in t.accounts ensures t.accounts[a].owner in t.users {
        if a !in s.accounts {
          var i := a - (s.next + 1);
          assert t.accounts[s.next + 1 + i] == Accounts.DefaultAccount(s.next, i);
        }
      }
    }
  }

  lemma CallKeepsOwners(s: State, bearer: Tokens.AccessToken, call: Call, fault: nat)
    requires OwnersExist(s)
    ensures OwnersExist(Perform(s, bearer, call, fault))
  {
    match call
    case PostTransaction(req) => PostKeepsOwners(s, req, fault);
    case DeleteUser(id) => DeleteKeepsOwners(s, id, fault);
    case _ =>
  }

  lemma PostKeepsOwners(s: State, req: Ledger.PostRequest, fault: nat)
    requires OwnersExist(s)
    ensures OwnersExist(Ledger.PostTransaction(s, true, req, fault).0)
  {
    var t := Ledger.PostTransaction(s, true, req, fault).0;
    assert forall a | a in t.accounts :: t.accounts[a].owner == s.accounts[a].owner;
  }

  lemma DeleteKeepsOwners(s: State, id: Id, fault: nat)
    requires OwnersExist(s)
    ensures OwnersExist(Users.DeleteUser(s, id, fault).0)
  {
  }

  lemma StepKeepsOwners(cfg: Tokens.Config, w: World, a: Move)
    requires OwnersExist(w.db)
    ensures OwnersExist(Step(cfg, w, a).db)
  {
    match a
    case Register(name, email, password, role, fault) =>
      RegisterKeepsOwners(w.db, name, email, password, role, fault);
    case AsAdmin(bearer, call, fault) => CallKeepsOwners(w.db, bearer, call, fault);
    case _ =>
  }

  lemma {:induction false} OwnersStay(cfg: Tokens.Config, w: World, run: seq<Move>)
    requires OwnersExist(w.db)
    ensures OwnersExist(After(cfg, w, run).db)
  {
    if run != [] {
      OwnersStay(cfg, w, run[..|run| - 1]);
      StepKeepsOwners(cfg, After(cfg, w, run[..|run| - 1]), run[|run| - 1]);
    }
  }

  lemma {:induction false} LedgerIsSafe(cfg: Tokens.Config, w: World, run: seq<Move>)
    requires LedgerHistory.Proper(Ledger.BooksOf(w.db))
    ensures LedgerHistory.Proper(Ledger.BooksOf(After(cfg, w, run).db))
    ensures Sound(Ledger.BooksOf(w.db)) && OnGridRun(run) ==> Sound(Ledger.BooksOf(After(cfg, w, run).db))
  {
    BooksAreHistory(cfg, w, run);
    LedgerHistory.ReplayProper(Ledger.BooksOf(w.db), History(cfg, w, run));
    if Sound(Ledger.BooksOf(w.db)) && OnGridRun(run) {
      HistoryOnGrid(cfg, w, run);
      LedgerHistory.ReplayStaysBalanced(Ledger.BooksOf(w.db), History(cfg, w, run));
    }
  }

  /** The invariants of all tables together: entries point at stored accounts, token
      families are chains of stored users, events and outbox rows pair up, transactions
      and ledger events pair up, and no row outlives its user. */
  ghost predicate Safe(cfg: Tokens.Config, w: World) {
    && LedgerHistory.Proper(Ledger.BooksOf(w.db))
    && TokensInv(cfg, w) && Trailed(w.db) && Traced(w.db) && OwnersExist(w.db)
  }

  /** Every run from a safe world, whoever its admins are, keeps all invariants at once;
      on four-decimal amounts stored debits stay equal to stored credits. */
  lemma {:induction false} EveryReachableWorldIsSafe(cfg: Tokens.Config, w: World, run: seq<Move>)
    requires Safe(cfg, w)
    ensures Safe(cfg, After(cfg, w, run))
    ensures Sound(Ledger.BooksOf(w.db)) && OnGridRun(run) ==> Sound(Ledger.BooksOf(After(cfg, w, run).db))
  {
    LedgerIsSafe(cfg, w, run);
    TokensStayOk(cfg, w, run);
    TrailIsPaired(cfg, w, run);
    LedgerIsTraced(cfg, w, run);
    OwnersStay(cfg, w, run);
  }

  // ---- a safe world in which things happen ----

  const ROOT := User("root", "root@example.org", Digest("secret"), Users.ADMIN, true)

  /** One active admin, as an operator would insert it, and nothing else. */
  const SEEDED := World(EMPTY.(users := map[0 := ROOT], next := 1), 0, {})

  /** Sign in, open two accounts, post ten units from one to the other. */
  function FirstPosting(bearer: Tokens.AccessToken): seq<Move> {
    [Login("root@example.org", "secret", 0),
     AsAdmin(bearer, Call.CreateAccount(None, "Cash", Asset, "", 0.0), 0),
     AsAdmin(bearer, Call.CreateAccount(None, "Capital", Equity, "", 0.0), 0),
     AsAdmin(bearer, Call.PostTransaction(TenUnits(5, 6)), 0)]
  }

  function TenUnits(debit: Id, credit: Id): Ledger.PostRequest {
    Ledger.PostRequest("opening", [Ledger.EntryRequest(debit, Debit, 10.0, ""),
                                   Ledger.EntryRequest(credit, Credit, 10.0, "")])
  }

  /** The seeded admin holds a fresh access token. */
  lemma RootSignsIn(cfg: Tokens.Config) returns (bearer: Tokens.AccessToken)
    ensures var w := Step(cfg, SEEDED, Login("root@example.org", "secret", 0));
            && AdmittedAsAdmin(w, bearer) && bearer.user == 0
            && w.db.users == SEEDED.db.users && w.db.accounts == map[] && w.db.entries == [] && w.db.next == 5
  {
    var users := SEEDED.db.users;
    assert (set id | id in users && users[id].email == "root@example.org") == {0};
    assert Tokens.FindUser(users, "root@example.org") == Some(0);
    bearer := Tokens.Sign(cfg, 0, ROOT, 0);
    BackendRoles.SignExpiry(cfg, 0, ROOT, 0);
    BackendRoles.LowerAdmin();
    assert Tokens.AccessLifetime(cfg) >= 60 * Tokens.SECOND by {
      var minutes := if cfg.accessMinutes <= 0 then 15 else cfg.accessMinutes;
      assert minutes >= 1 && Tokens.AccessLifetime(cfg) == minutes * 60 * Tokens.SECOND;
    }
  }

  lemma RootOpens(cfg: Tokens.Config, w: World, bearer: Tokens.AccessToken, name: string, kind: AccountType)
    requires AdmittedAsAdmin(w, bearer) && bearer.user in w.db.users
    requires w.db.next !in w.db.accounts && name != "" && kind != OtherType
    ensures var t := Step(cfg, w, AsAdmin(bearer, Call.CreateAccount(None, name, kind, "", 0.0), 0));
            t == w.(db := w.db.(accounts := w.db.accounts[w.db.next := Account(bearer.user, name, kind, "INR", 0)],
                                next := w.db.next + 1))
  {
    Money.RoundWhole(0);
  }

  lemma TenUnitsArePostable(b: Ledger.Books, debit: Id, credit: Id)
    requires debit != credit && debit in b.accounts && credit in b.accounts
    requires b.accounts[debit].kind == Asset && b.accounts[credit].kind == Equity
    requires b.accounts[debit].balance == 0 && b.accounts[credit].balance == 0
    ensures Ledger.Postable(b, TenUnits(debit, credit))
    ensures var after := Ledger.Post(b, 7, TenUnits(debit, credit)).accounts;
            after[debit].balance == 10 && after[credit].balance == 10
  {
    var es := TenUnits(debit, credit).entries;
    Money.RoundWhole(10);
    assert es[0] in es && es[1] in es && Ledger.Accounts(es) == {debit, credit};
    TenUnitsAreValid(debit, credit);
    TenUnitsMove(debit, credit);
  }

  lemma TenUnitsAreValid(debit: Id, credit: Id)
    ensures Ledger.Valid(TenUnits(debit, credit))
    ensures LedgerFacts.AllOnGrid(TenUnits(debit, credit).entries)
  {
    var es := TenUnits(debit, credit).entries;
    LedgerFacts.TotalPrefix(es, 0, Debit);
    LedgerFacts.TotalPrefix(es, 1, Debit);
    LedgerFacts.TotalPrefix(es, 0, Credit);
    LedgerFacts.TotalPrefix(es, 1, Credit);
    assert es[..0] == [] && es[..2] == es;
  }

  lemma TenUnitsMove(debit: Id, credit: Id)
    requires debit != credit
    ensures Ledger.Net(TenUnits(debit, credit).entries, debit, Asset) == 10.0
    ensures Ledger.Net(TenUnits(debit, credit).entries, credit, Equity) == 10.0
  {
    var es := TenUnits(debit, credit).entries;
    LedgerFacts.NetPrefix(es, 0, debit, Asset);
    LedgerFacts.NetPrefix(es, 1, debit, Asset);
    LedgerFacts.NetPrefix(es, 0, credit, Equity);
    LedgerFacts.NetPrefix(es, 1, credit, Equity);
    assert es[..0] == [] && es[..2] == es;
  }

  lemma RootPosts(cfg: Tokens.Config, w: World, bearer: Tokens.AccessToken)
    requires AdmittedAsAdmin(w, bearer) && w.db.next == 7 && w.db.entries == []
    requires 5 in w.db.accounts && w.db.accounts[5] == Account(0, "Cash", Asset, "INR", 0)
    requires 6 in w.db.accounts && w.db.accounts[6] == Account(0, "Capital", Equity, "INR", 0)
    ensures var t := Step(cfg, w, AsAdmin(bearer, Call.PostTransaction(TenUnits(5, 6)), 0)).db;
            && |t.entries| == 2 && Audit.BuildEvent(8, LEDGER, 7, Create) in t.audit
            && t.accounts.Keys == w.db.accounts.Keys
            && t.accounts[5].balance == 10 && t.accounts[6].balance == 10
  {
    TenUnitsArePostable(Ledger.BooksOf(w.db), 5, 6);
  }

  /** The second and third action, from wherever the first led. */
  lemma RootOpensBoth(cfg: Tokens.Config, w: World, bearer: Tokens.AccessToken)
    requires AdmittedAsAdmin(w, bearer) && bearer.user == 0 && 0 in w.db.users
    requires w.db.accounts == map[] && w.db.next == 5
    ensures var open := [AsAdmin(bearer, Call.CreateAccount(None, "Cash", Asset, "", 0.0), 0),
                         AsAdmin(bearer, Call.CreateAccount(None, "Capital", Equity, "", 0.0), 0)];
            After(cfg, w, open)
            == w.(db := w.db.(accounts := map[5 := Account(0, "Cash", Asset, "INR", 0),
                                              6 := Account(0, "Capital", Equity, "INR", 0)], next := 7))
  {
    var open := [AsAdmin(bearer, Call.CreateAccount(None, "Cash", Asset, "", 0.0), 0),
                 AsAdmin(bearer, Call.CreateAccount(None, "Capital", Equity, "", 0.0), 0)];
    AtNext(cfg, w, open, 0);
    AtNext(cfg, w, open, 1);
    RootOpens(cfg, w, bearer, "Cash", Asset);
    RootOpens(cfg, At(cfg, w, open, 1), bearer, "Capital", Equity);
    assert open[..2] == open && open[..0] == [];
  }

  /** The seeded world is safe, and its admin can sign in and post: the theorem above
      speaks of runs with accounts, entries and ledger events. */
  lemma SeededWorldPosts(cfg: Tokens.Config) returns (bearer: Tokens.AccessToken)
    ensures Safe(cfg, SEEDED) && Sound(Ledger.BooksOf(SEEDED.db))
    ensures var after := After(cfg, SEEDED, FirstPosting(bearer)).db;
            && |after.entries| == 2 && Audit.BuildEvent(8, LEDGER, 7, Create) in after.audit
            && after.accounts.Keys == {5, 6}
            && after.accounts[5].balance == 10 && after.accounts[6].balance == 10
  {
    bearer := RootSignsIn(cfg);
    var run := FirstPosting(bearer);
    var w1 := Step(cfg, SEEDED, run[0]);
    AfterHead(cfg, SEEDED, run);
    RootOpensBoth(cfg, w1, bearer);
    AfterSplits(cfg, w1, run[1..3], run[3..]);
    assert run[1..] == run[1..3] + run[3..];
    var w3 := After(cfg, w1, run[1..3]);
    AfterHead(cfg, w3, run[3..]);
    RootPosts(cfg, w3, bearer);
    assert run[3..][1..] == [];
  }
}
