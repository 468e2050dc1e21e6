/** The whole backend as one state machine: every route that writes, the clock and the
    publisher are the actions, one call at a time. The routes and their role guards are
    those of routes/routes.go. */
module Backend {
  import opened Common
  import opened Tables
  import Accounts
  import Auth
  import Ledger
  import Outbox
  import Records
  import Tokens
  import Users

  /** Calls behind RequireRole("admin"). The record's owner and the account's owner are
      the bearer. */
  datatype Call =
    | UpdateUser(id: Id, changes: Users.UserChanges)
    | DeleteUser(id: Id)
    | CreateAccount(key: Option<Id>, name: string, kind: AccountType, currency: string, opening: real)
    | PostTransaction(req: Ledger.PostRequest)
    | CreateRecord(n: Records.NewRecord)
    | UpdateRecord(record: Id, fields: Records.RecordChanges)
    | DeleteRecord(record: Id)

  /** `fault` is the database statement that fails, 0 for none. */
  datatype Move =
    | Tick(elapsed: nat)
    | Register(name: string, email: string, password: string, role: string, fault: nat)
    | Login(email: string, password: string, fault: nat)
    | Refresh(raw: Id)
    | Logout(bearer: Tokens.AccessToken)
    | AsAdmin(bearer: Tokens.AccessToken, call: Call, fault: nat)
    | Publish(fetchFails: bool, failing: set<Id>, collectFails: bool)

  /** The tables, the clock and every access token signed so far. */
  datatype World = World(db: State, now: Time, issued: set<Tokens.AccessToken>)

  // ---- guards ----

  function LowerChar(c: char): char {
    if 'A' <= c <= 'Z' then c - 'A' + 'a' else c
  }

  function Lower(s: string): (r: string)
    ensures |r| == |s|
  {
    seq(|s|, i requires 0 <= i < |s| => LowerChar(s[i]))
  }

  /** RequireRole compares without regard to case. */
  predicate AdminRole(role: string) {
    Lower(role) == Users.ADMIN
  }

  /** AuthMiddleware: a signed token that has not expired. The database is not asked. */
  predicate Admitted(w: World, bearer: Tokens.AccessToken) {
    bearer in w.issued && Tokens.Unexpired(bearer, w.now)
  }

  predicate AdmittedAsAdmin(w: World, bearer: Tokens.AccessToken) {
    Admitted(w, bearer) && AdminRole(bearer.role)
  }

  // ---- steps ----

  function Perform(s: State, bearer: Tokens.AccessToken, call: Call, fault: nat): State {
    match call
    case UpdateUser(id, changes) => Users.UpdateUser(s, id, changes, fault).0
    case DeleteUser(id) => Users.DeleteUser(s, id, fault).0
    case CreateAccount(key, name, kind, currency, opening) =>
      Accounts.CreateAccount(s, key, bearer.user, name, kind, currency, opening, fault != 0).0
    case PostTransaction(req) => Ledger.PostTransaction(s, true, req, fault).0
    case CreateRecord(n) => Records.CreateRecord(s, n.(owner := bearer.user), fault).0
    case UpdateRecord(id, fields) => Records.UpdateRecord(s, id, fields, fault).0
    case DeleteRecord(id) => Records.DeleteRecord(s, id, fault).0
  }

  /** One round of the publisher, on the tables. */
  function PublishRound(s: State, fetchFails: bool, failing: set<Id>, collectFails: bool, now: Time): State {
    if fetchFails || Outbox.Batch(s.outbox, |s.outbox|) == [] then s
    else
      s.(outbox := Outbox.Poll(s.outbox, failing),
         tokens := if collectFails then s.tokens else Tokens.Collect(s.tokens, now))
  }

  function Signed(r: Result<(Tokens.AccessToken, Id)>): set<Tokens.AccessToken> {
    if r.Ok? then {r.value.0} else {}
  }

  function Step(cfg: Tokens.Config, w: World, a: Move): World {
    match a
    case Tick(d) => w.(now := w.now + d)
    case Register(name, email, password, role, fault) =>
      w.(db := Users.Register(w.db, name, email, password, role, fault).0)
    case Login(email, password, fault) =>
      var (t, r) := Auth.Login(w.db, cfg, email, password, w.now, fault);
      World(t, w.now, w.issued + Signed(r))
    case Refresh(raw) =>
      var (t, r) := Tokens.Refresh(w.db, cfg, raw, w.now);
      World(t, w.now, w.issued + Signed(r))
    case Logout(bearer) =>
      if Admitted(w, bearer) then w.(db := w.db.(tokens := Tokens.RevokeUser(w.db.tokens, bearer.user, w.now)))
      else w
    case AsAdmin(bearer, call, fault) =>
      if AdmittedAsAdmin(w, bearer) then w.(db := Perform(w.db, bearer, call, fault)) else w
    case Publish(fetchFails, failing, collectFails) =>
      w.(db := PublishRound(w.db, fetchFails, failing, collectFails, w.now))
  }

  function After(cfg: Tokens.Config, w: World, run: seq<Move>): World {
    if run == [] then w else Step(cfg, After(cfg, w, run[..|run| - 1]), run[|run| - 1])
  }

  /** The world reached after the first i actions. */
  function At(cfg: Tokens.Config, w: World, run: seq<Move>, i: nat): World
    requires i <= |run|
  {
    After(cfg, w, run[..i])
  }

  lemma AtNext(cfg: Tokens.Config, w: World, run: seq<Move>, i: nat)
    requires i < |run|
    ensures At(cfg, w, run, i + 1) == Step(cfg, At(cfg, w, run, i), run[i])
  {
    assert run[..i + 1][..i] == run[..i];
  }

  lemma {:induction false} AfterSplits(cfg: Tokens.Config, w: World, first: seq<Move>, rest: seq<Move>)
    ensures After(cfg, w, first + rest) == After(cfg, After(cfg, w, first), rest)
  {
    if rest == [] {
      assert first + rest == first;
    } else {
      AfterSplits(cfg, w, first, rest[..|rest| - 1]);
      assert (first + rest)[..|first + rest| - 1] == first + rest[..|rest| - 1];
    }
  }

  lemma AtSplits(cfg: Tokens.Config, w: World, run: seq<Move>, i: nat, j: nat)
    requires i < j <= |run|
    ensures At(cfg, w, run, j) == After(cfg, Step(cfg, At(cfg, w, run, i), run[i]), run[i + 1..j])
  {
    assert run[..j] == run[..i + 1] + run[i + 1..j];
    AfterSplits(cfg, w, run[..i + 1], run[i + 1..j]);
    AtNext(cfg, w, run, i);
  }

  lemma {:induction false} AfterHead(cfg: Tokens.Config, w: World, run: seq<Move>)
    requires run != []
    ensures After(cfg, w, run) == After(cfg, Step(cfg, w, run[0]), run[1..])
  {
    assert run == [run[0]] + run[1..] && [run[0]][..0] == [];
    AfterSplits(cfg, w, [run[0]], run[1..]);
    assert After(cfg, w, [run[0]]) == Step(cfg, w, run[0]);
  }

  lemma NextGrows(cfg: Tokens.Config, w: World, a: Move)
    ensures w.db.next <= Step(cfg, w, a).db.next
    ensures w.now <= Step(cfg, w, a).now && w.issued <= Step(cfg, w, a).issued
  {
  }
}
