/** Refresh tokens over whole runs of the backend: families stay chains, a token is
    redeemed once, reuse kills a family for good, and live tokens are paid for by
    sign-ins. */
module BackendTokens {
  import opened Common
  import opened Tables
  import opened Tokens
  import opened TokenFacts
  import opened Backend
  import Auth

  // ---- the invariant ----

  ghost predicate TokensInv(cfg: Config, w: World) {
    && TokensOk(w.db.tokens, w.db.next, w.now + RefreshLifetime(cfg))
    && (forall i | i in w.db.tokens :: w.db.tokens[i].owner in w.db.users)
  }

  lemma Weaken(tokens: map<Id, RefreshToken>, next: Id, horizon: Time, next': Id, horizon': Time)
    requires TokensOk(tokens, next, horizon) && next <= next' && horizon <= horizon'
    ensures TokensOk(tokens, next', horizon')
  {
  }

  lemma {:induction false} LoginKeeps(cfg: Config, w: World, email: string, password: string, fault: nat)
    requires TokensInv(cfg, w)
    ensures TokensInv(cfg, Step(cfg, w, Login(email, password, fault)))
  {
    LoginIssues(w.db, cfg, email, password, w.now, fault);
    var (t, r) := Auth.Login(w.db, cfg, email, password, w.now, fault);
    if r.Ok? {
      var id, horizon := FindUser(w.db.users, email).value, w.now + RefreshLifetime(cfg);
      IssueKeeps(w.db, cfg, id, w.now);
      var s1 := Issue(w.db, cfg, id, w.now).0;
      Weaken(s1.tokens, s1.next, horizon, t.next, horizon);
    }
  }

  /** A sign-in changes the tokens as IssueTokenPair does, or not at all. */
  lemma LoginIssues(s: State, cfg: Config, email: string, password: string, now: Time, fault: nat)
    ensures var (t, r) := Auth.Login(s, cfg, email, password, now, fault);
            && t.users == s.users
            && if r.Ok? then
                 && FindUser(s.users, email).Some? && FindUser(s.users, email).value in s.users
                 && t.tokens == Issue(s, cfg, FindUser(s.users, email).value, now).0.tokens
                 && Issue(s, cfg, FindUser(s.users, email).value, now).0.next <= t.next
               else t == s
  {
  }

  lemma {:induction false} RefreshStepKeeps(cfg: Config, w: World, raw: Id)
    requires TokensInv(cfg, w)
    ensures TokensInv(cfg, Step(cfg, w, Move.Refresh(raw)))
  {
    RefreshKeeps(w.db, cfg, raw, w.now);
    RefreshOwners(w.db, cfg, raw, w.now);
  }

  /** A refresh changes no user, and a new row belongs to the owner of the old one. */
  lemma RefreshOwners(s: State, cfg: Config, raw: Id, now: Time)
    requires TokensOk(s.tokens, s.next, now + RefreshLifetime(cfg))
    requires forall i | i in s.tokens :: s.tokens[i].owner in s.users
    ensures var t := Tokens.Refresh(s, cfg, raw, now).0;
            t.users == s.users && forall i | i in t.tokens :: t.tokens[i].owner in t.users
  {
    RefreshAccepted(s, cfg, raw, now);
  }

  function Without(tokens: map<Id, RefreshToken>, user: Id): map<Id, RefreshToken> {
    map i | i in tokens && tokens[i].owner != user :: tokens[i]
  }

  /** Of the admin calls only a user deletion touches the tokens. */
  lemma CallTokens(s: State, bearer: AccessToken, call: Call, fault: nat)
    ensures var t := Perform(s, bearer, call, fault);
            && s.next <= t.next
            && if call.DeleteUser? && t != s then
                 t.tokens == Without(s.tokens, call.id) && t.users == s.users - {call.id}
               else t.tokens == s.tokens && s.users.Keys <= t.users.Keys
  {
  }

  lemma {:induction false} CallKeeps(cfg: Config, w: World, bearer: AccessToken, call: Call, fault: nat)
    requires TokensInv(cfg, w)
    ensures TokensInv(cfg, w.(db := Perform(w.db, bearer, call, fault)))
  {
    CallTokens(w.db, bearer, call, fault);
    var s, t, horizon := w.db, Perform(w.db, bearer, call, fault), w.now + RefreshLifetime(cfg);
    if call.DeleteUser? {
      OwnerDropKeeps(s.tokens, call.id, s.next, horizon);
    }
    Weaken(t.tokens, s.next, horizon, t.next, horizon);
  }

  lemma RegisterKeeps(cfg: Config, w: World, a: Move)
    requires TokensInv(cfg, w) && a.Register?
    ensures TokensInv(cfg, Step(cfg, w, a))
  {
    var t, horizon := Step(cfg, w, a).db, w.now + RefreshLifetime(cfg);
    assert t.tokens == w.db.tokens && w.db.users.Keys <= t.users.Keys && w.db.next <= t.next;
    Weaken(w.db.tokens, w.db.next, horizon, t.next, horizon);
  }

  lemma {:induction false} LogoutKeeps(cfg: Config, w: World, bearer: AccessToken)
    requires TokensInv(cfg, w)
    ensures TokensInv(cfg, Step(cfg, w, Logout(bearer)))
  {
    RevokeKeeps(w.db.tokens, RevokeUser(w.db.tokens, bearer.user, w.now), w.now, w.db.next,
                w.now + RefreshLifetime(cfg));
  }

  lemma {:induction false} StepKeepsTokens(cfg: Config, w: World, a: Move)
    requires TokensInv(cfg, w)
    ensures TokensInv(cfg, Step(cfg, w, a))
  {
    var horizon := w.now + RefreshLifetime(cfg);
    match a
    case Tick(d) => Weaken(w.db.tokens, w.db.next, horizon, w.db.next, horizon + d);
    case Register(_, _, _, _, _) => RegisterKeeps(cfg, w, a);
    case Login(email, password, fault) => LoginKeeps(cfg, w, email, password, fault);
    case Refresh(raw) => RefreshStepKeeps(cfg, w, raw);
    case Logout(bearer) => LogoutKeeps(cfg, w, bearer);
    case AsAdmin(bearer, call, fault) => CallKeeps(cfg, w, bearer, call, fault);
    case Publish(_, _, _) => CollectKeeps(w.db.tokens, w.now, w.db.next, horizon);
  }

  lemma {:induction false} TokensStayOk(cfg: Config, w: World, run: seq<Move>)
    requires TokensInv(cfg, w)
    ensures TokensInv(cfg, After(cfg, w, run))
  {
    if run != [] {
      TokensStayOk(cfg, w, run[..|run| - 1]);
      StepKeepsTokens(cfg, After(cfg, w, run[..|run| - 1]), run[|run| - 1]);
    }
  }

  /** In every run, the stored tokens of a family form one chain with one owner; only its
      last row can be live. */
  lemma FamiliesStayChains(cfg: Config, w: World, run: seq<Move>, family: Id) returns (chain: seq<Id>)
    requires TokensInv(cfg, w)
    ensures var tokens := After(cfg, w, run).db.tokens;
            && (forall i :: i in chain <==> i in tokens && tokens[i].family == family)
            && Ascending(chain)
            && (forall k | 0 <= k < |chain| - 1 :: Replaces(tokens, chain[k], chain[k + 1]))
            && (chain != [] ==> tokens[chain[|chain| - 1]].replacedBy == None)
  {
    TokensStayOk(cfg, w, run);
    chain := FamilyIsOneChain(After(cfg, w, run).db.tokens, family);
  }

  // ---- dead families and spent tokens stay so ----

  /** Rows an action may leave behind: old ones, possibly revoked, under unchanged hash,
      owner and family, and new ones under fresh hash and with a family that is fresh or
      was live. */
  ghost predicate Evolves(s: State, t: State) {
    && s.next <= t.next
    && (forall i | i in t.tokens && i in s.tokens ::
          && t.tokens[i].hash == s.tokens[i].hash && t.tokens[i].family == s.tokens[i].family
          && (s.tokens[i].revoked.Some? ==> t.tokens[i].revoked.Some?))
    && (forall i | i in t.tokens && i !in s.tokens ::
          && s.next <= t.tokens[i].hash.preimage
          && (s.next <= t.tokens[i].family
              || exists k :: k in s.tokens && s.tokens[k].revoked.None? && s.tokens[k].family == t.tokens[i].family))
  }

  lemma RefreshEvolves(cfg: Config, w: World, raw: Id)
    requires TokensInv(cfg, w)
    ensures Evolves(w.db, Step(cfg, w, Move.Refresh(raw)).db)
  {
    RefreshAccepted(w.db, cfg, raw, w.now);
  }

  lemma {:induction false} LoginEvolves(cfg: Config, w: World, email: string, password: string, fault: nat)
    requires TokensInv(cfg, w)
    ensures Evolves(w.db, Step(cfg, w, Login(email, password, fault)).db)
  {
    LoginIssues(w.db, cfg, email, password, w.now, fault);
  }

  /** No new rows, and old ones as they were or revoked. */
  lemma OldRowsEvolve(s: State, t: State, now: Time)
    requires s.next <= t.next
    requires forall i | i in t.tokens ::
               i in s.tokens && (t.tokens[i] == s.tokens[i] || t.tokens[i] == Revoked(s.tokens[i], now))
    ensures Evolves(s, t)
  {
  }

  lemma {:induction false} StepEvolves(cfg: Config, w: World, a: Move)
    requires TokensInv(cfg, w)
    ensures Evolves(w.db, Step(cfg, w, a).db)
  {
    match a
    case Login(email, password, fault) => LoginEvolves(cfg, w, email, password, fault);
    case Refresh(raw) => RefreshEvolves(cfg, w, raw);
    case AsAdmin(bearer, call, fault) =>
      CallTokens(w.db, bearer, call, fault);
      OldRowsEvolve(w.db, Step(cfg, w, a).db, w.now);
    case _ => OldRowsEvolve(w.db, Step(cfg, w, a).db, w.now);
  }

  lemma StaysDead(s: State, t: State, family: Id)
    requires Evolves(s, t) && Dead(s.tokens, s.next, family)
    ensures Dead(t.tokens, t.next, family)
  {
  }

  lemma StaysSpent(s: State, t: State, raw: Id)
    requires Evolves(s, t) && Spent(s.tokens, s.next, raw)
    ensures Spent(t.tokens, t.next, raw)
  {
  }

  lemma {:induction false} DeadForGood(cfg: Config, w: World, run: seq<Move>, family: Id)
    requires TokensInv(cfg, w) && Dead(w.db.tokens, w.db.next, family)
    ensures Dead(After(cfg, w, run).db.tokens, After(cfg, w, run).db.next, family)
  {
    if run != [] {
      var init := run[..|run| - 1];
      DeadForGood(cfg, w, init, family);
      TokensStayOk(cfg, w, init);
      StepEvolves(cfg, After(cfg, w, init), run[|run| - 1]);
      StaysDead(After(cfg, w, init).db, After(cfg, w, run).db, family);
    }
  }

  lemma {:induction false} SpentForGood(cfg: Config, w: World, run: seq<Move>, raw: Id)
    requires TokensInv(cfg, w) && Spent(w.db.tokens, w.db.next, raw)
    ensures Spent(After(cfg, w, run).db.tokens, After(cfg, w, run).db.next, raw)
  {
    if run != [] {
      var init := run[..|run| - 1];
      SpentForGood(cfg, w, init, raw);
      TokensStayOk(cfg, w, init);
      StepEvolves(cfg, After(cfg, w, init), run[|run| - 1]);
      StaysSpent(After(cfg, w, init).db, After(cfg, w, run).db, raw);
    }
  }

  // ---- reuse detection ----

  predicate Accepted(cfg: Config, w: World, raw: Id) {
    Tokens.Refresh(w.db, cfg, raw, w.now).1.Ok?
  }

  /** Presenting a stored token that is already revoked kills its family for good: in no
      continuation is a token of that family accepted, whether stored now or later, and
      rows of other families are untouched. */
  lemma {:induction false} ReuseKillsFamily(cfg: Config, w: World, raw: Id, id: Id, run: seq<Move>, other: Id)
    requires TokensInv(cfg, w)
    requires id in w.db.tokens && w.db.tokens[id].hash == Digest(raw) && w.db.tokens[id].revoked.Some?
    ensures var w' := Step(cfg, w, Move.Refresh(raw));
            var later := After(cfg, w', run);
            && !Accepted(cfg, w, raw)
            && (forall i | i in w.db.tokens && w.db.tokens[i].family != w.db.tokens[id].family ::
                  i in w'.db.tokens && w'.db.tokens[i] == w.db.tokens[i])
            && (Accepted(cfg, later, other) ==>
                  && Find(later.db.tokens, other).Some?
                  && later.db.tokens[Find(later.db.tokens, other).value].family != w.db.tokens[id].family)
  {
    Unique(w.db.tokens, raw, id);
    var w', family := Step(cfg, w, Move.Refresh(raw)), w.db.tokens[id].family;
    assert Dead(w'.db.tokens, w'.db.next, family);
    StepKeepsTokens(cfg, w, Move.Refresh(raw));
    DeadForGood(cfg, w', run, family);
    TokensStayOk(cfg, w', run);
    var later := After(cfg, w', run);
    RefreshAccepted(later.db, cfg, other, later.now);
  }

  // ---- single redemption ----

  lemma AcceptedIsSpent(cfg: Config, w: World, raw: Id)
    requires TokensInv(cfg, w) && Accepted(cfg, w, raw)
    ensures var s := Step(cfg, w, Move.Refresh(raw)).db; Spent(s.tokens, s.next, raw)
  {
    RefreshAccepted(w.db, cfg, raw, w.now);
    var id := Find(w.db.tokens, raw).value;
    assert id in Matching(w.db.tokens, raw);
  }

  lemma SpentIsRefused(cfg: Config, w: World, raw: Id)
    requires TokensInv(cfg, w) && Spent(w.db.tokens, w.db.next, raw)
    ensures !Accepted(cfg, w, raw)
  {
    RefreshAccepted(w.db, cfg, raw, w.now);
    if Find(w.db.tokens, raw).Some? {
      assert Find(w.db.tokens, raw).value in Matching(w.db.tokens, raw);
    }
  }

  lemma {:induction false} RedeemedIsRefused(cfg: Config, w: World, raw: Id, run: seq<Move>)
    requires TokensInv(cfg, w) && Accepted(cfg, w, raw)
    ensures !Accepted(cfg, After(cfg, Step(cfg, w, Move.Refresh(raw)), run), raw)
  {
    var w' := Step(cfg, w, Move.Refresh(raw));
    StepKeepsTokens(cfg, w, Move.Refresh(raw));
    AcceptedIsSpent(cfg, w, raw);
    SpentForGood(cfg, w', run, raw);
    TokensStayOk(cfg, w', run);
    SpentIsRefused(cfg, After(cfg, w', run), raw);
  }

  /** Over any run each refresh token is accepted at most once. */
  lemma SingleRedemption(cfg: Config, w: World, run: seq<Move>, i: nat, j: nat, raw: Id)
    requires TokensInv(cfg, w) && i < j <= |run|
    requires run[i] == Move.Refresh(raw) && Accepted(cfg, At(cfg, w, run, i), raw)
    ensures !Accepted(cfg, At(cfg, w, run, j), raw)
  {
    TokensStayOk(cfg, w, run[..i]);
    RedeemedIsRefused(cfg, At(cfg, w, run, i), raw, run[i + 1..j]);
    AtSplits(cfg, w, run, i, j);
  }

  // ---- live tokens are paid for by sign-ins ----

  /** The user a successful sign-in is for. */
  function SignedIn(cfg: Config, w: World, a: Move): Option<Id> {
    if a.Login? && Auth.Login(w.db, cfg, a.email, a.password, w.now, a.fault).1.Ok? then FindUser(w.db.users, a.email)
    else None
  }

  /** Successful sign-ins of a user since the last logout; before any logout, the tokens
      live at the start count as well. */
  function SignInsSinceLogout(cfg: Config, w: World, run: seq<Move>, user: Id): nat {
    if run == [] then |Live(w.db.tokens, user)|
    else
      var init, a := run[..|run| - 1], run[|run| - 1];
      var before := At(cfg, w, run, |run| - 1);
      if a.Logout? && Admitted(before, a.bearer) && a.bearer.user == user then 0
      else SignInsSinceLogout(cfg, w, init, user) + if SignedIn(cfg, before, a) == Some(user) then 1 else 0
  }

  lemma LoginLive(cfg: Config, w: World, a: Move, user: Id)
    requires TokensInv(cfg, w) && a.Login?
    ensures |Live(Step(cfg, w, a).db.tokens, user)|
         == |Live(w.db.tokens, user)| + if SignedIn(cfg, w, a) == Some(user) then 1 else 0
  {
    LoginIssues(w.db, cfg, a.email, a.password, w.now, a.fault);
    if SignedIn(cfg, w, a).Some? {
      IssueAddsOneLive(w.db, cfg, SignedIn(cfg, w, a).value, w.now, user);
    }
  }

  lemma RefreshLive(cfg: Config, w: World, raw: Id, user: Id)
    requires TokensInv(cfg, w)
    ensures |Live(Step(cfg, w, Move.Refresh(raw)).db.tokens, user)| <= |Live(w.db.tokens, user)|
  {
    if Acceptable(w.db, raw, w.now) {
      RefreshConserves(w.db, cfg, raw, w.now, user);
    } else {
      RefreshAccepted(w.db, cfg, raw, w.now);
      FewerLive(w.db.tokens, Step(cfg, w, Move.Refresh(raw)).db.tokens, user);
    }
  }

  lemma LogoutLive(cfg: Config, w: World, bearer: AccessToken, user: Id)
    ensures |Live(Step(cfg, w, Logout(bearer)).db.tokens, user)|
         <= if Admitted(w, bearer) && bearer.user == user then 0 else |Live(w.db.tokens, user)|
  {
    var after := Step(cfg, w, Logout(bearer)).db.tokens;
    if Admitted(w, bearer) && bearer.user == user {
      assert Live(after, user) == {};
    } else {
      FewerLive(w.db.tokens, after, user);
    }
  }

  lemma CallLive(cfg: Config, w: World, bearer: AccessToken, call: Call, fault: nat, user: Id)
    ensures |Live(Step(cfg, w, AsAdmin(bearer, call, fault)).db.tokens, user)| <= |Live(w.db.tokens, user)|
  {
    CallTokens(w.db, bearer, call, fault);
    FewerLive(w.db.tokens, Step(cfg, w, AsAdmin(bearer, call, fault)).db.tokens, user);
  }

  lemma PublishLive(cfg: Config, w: World, a: Move, user: Id)
    requires a.Publish?
    ensures |Live(Step(cfg, w, a).db.tokens, user)| <= |Live(w.db.tokens, user)|
  {
    FewerLive(w.db.tokens, Step(cfg, w, a).db.tokens, user);
  }

  lemma StepLive(cfg: Config, w: World, a: Move, user: Id)
    requires TokensInv(cfg, w)
    ensures |Live(Step(cfg, w, a).db.tokens, user)|
         <= if a.Logout? && Admitted(w, a.bearer) && a.bearer.user == user then 0
            else |Live(w.db.tokens, user)| + if SignedIn(cfg, w, a) == Some(user) then 1 else 0
  {
    match a
    case Login(_, _, _) => LoginLive(cfg, w, a, user);
    case Refresh(raw) => RefreshLive(cfg, w, raw, user);
    case Logout(bearer) => LogoutLive(cfg, w, bearer, user);
    case AsAdmin(bearer, call, fault) => CallLive(cfg, w, bearer, call, fault, user);
    case Publish(_, _, _) => PublishLive(cfg, w, a, user);
    case Tick(_) =>
    case Register(_, _, _, _, _) => assert Step(cfg, w, a).db.tokens == w.db.tokens;
  }

  /** A user never holds more live refresh tokens than sign-ins since the last logout. */
  lemma {:induction false} LiveWithinSignIns(cfg: Config, w: World, run: seq<Move>, user: Id)
    requires TokensInv(cfg, w)
    ensures |Live(After(cfg, w, run).db.tokens, user)| <= SignInsSinceLogout(cfg, w, run, user)
  {
    if run != [] {
      var init := run[..|run| - 1];
      LiveWithinSignIns(cfg, w, init, user);
      TokensStayOk(cfg, w, init);
      StepLive(cfg, After(cfg, w, init), run[|run| - 1], user);
    }
  }

  // ---- reuse is detected for the whole lifetime of a token ----

  /** The row is there under its hash, family, owner and expiry, revoked if it was. */
  ghost predicate KeptRow(s: State, t: State, id: Id) {
    && id in s.tokens && id in t.tokens
    && t.tokens[id].hash == s.tokens[id].hash && t.tokens[id].family == s.tokens[id].family
    && t.tokens[id].owner == s.tokens[id].owner && t.tokens[id].expires == s.tokens[id].expires
    && (s.tokens[id].revoked.Some? ==> t.tokens[id].revoked.Some?)
  }

  lemma RefreshKeepsRow(cfg: Config, w: World, raw: Id, id: Id)
    requires TokensInv(cfg, w) && id in w.db.tokens
    ensures KeptRow(w.db, Step(cfg, w, Move.Refresh(raw)).db, id)
  {
    RefreshAccepted(w.db, cfg, raw, w.now);
  }

  lemma LoginKeepsRow(cfg: Config, w: World, email: string, password: string, fault: nat, id: Id)
    requires TokensInv(cfg, w) && id in w.db.tokens
    ensures KeptRow(w.db, Step(cfg, w, Login(email, password, fault)).db, id)
  {
    LoginIssues(w.db, cfg, email, password, w.now, fault);
  }

  lemma CallKeepsRow(cfg: Config, w: World, bearer: AccessToken, call: Call, fault: nat, id: Id)
    requires TokensInv(cfg, w) && id in w.db.tokens
    requires w.db.tokens[id].owner in Step(cfg, w, AsAdmin(bearer, call, fault)).db.users
    ensures KeptRow(w.db, Step(cfg, w, AsAdmin(bearer, call, fault)).db, id)
  {
    CallTokens(w.db, bearer, call, fault);
  }

  lemma LogoutKeepsRow(cfg: Config, w: World, bearer: AccessToken, id: Id)
    requires id in w.db.tokens
    ensures KeptRow(w.db, Step(cfg, w, Logout(bearer)).db, id)
  {
  }

  /** No action removes a row before its expiry, unless it deletes the owner. */
  lemma StepKeepsRow(cfg: Config, w: World, a: Move, id: Id)
    requires TokensInv(cfg, w) && id in w.db.tokens && w.now <= w.db.tokens[id].expires
    requires w.db.tokens[id].owner in Step(cfg, w, a).db.users
    ensures KeptRow(w.db, Step(cfg, w, a).db, id)
  {
    match a
    case Login(email, password, fault) => LoginKeepsRow(cfg, w, email, password, fault, id);
    case Refresh(raw) => RefreshKeepsRow(cfg, w, raw, id);
    case AsAdmin(bearer, call, fault) => CallKeepsRow(cfg, w, bearer, call, fault, id);
    case Publish(_, _, _) => CollectIsExact(w.db.tokens, w.now, id);
    case Logout(bearer) => LogoutKeepsRow(cfg, w, bearer, id);
    case Register(_, _, _, _, _) => assert Step(cfg, w, a).db.tokens == w.db.tokens;
    case Tick(_) =>
  }

  /** The user has a row at every moment of the run. */
  ghost predicate NeverDeleted(cfg: Config, w: World, run: seq<Move>, user: Id) {
    forall i | 0 <= i <= |run| :: user in At(cfg, w, run, i).db.users
  }

  lemma NeverDeletedEarlier(cfg: Config, w: World, run: seq<Move>, user: Id)
    requires run != [] && NeverDeleted(cfg, w, run, user)
    ensures NeverDeleted(cfg, w, run[..|run| - 1], user) && user in After(cfg, w, run).db.users
  {
    var init := run[..|run| - 1];
    forall i | 0 <= i <= |init| ensures user in At(cfg, w, init, i).db.users {
      assert init[..i] == run[..i] && user in At(cfg, w, run, i).db.users;
    }
    assert run[..|run|] == run && user in At(cfg, w, run, |run|).db.users;
  }

  /** A stored row stays stored in every continuation whose clock has not passed its expiry
      and that never deletes its owner. */
  lemma {:induction false} RowIsKept(cfg: Config, w: World, run: seq<Move>, id: Id)
    requires TokensInv(cfg, w) && id in w.db.tokens
    requires After(cfg, w, run).now <= w.db.tokens[id].expires
    requires NeverDeleted(cfg, w, run, w.db.tokens[id].owner)
    ensures KeptRow(w.db, After(cfg, w, run).db, id)
  {
    if run != [] {
      var init, a := run[..|run| - 1], run[|run| - 1];
      var before := After(cfg, w, init);
      NeverDeletedEarlier(cfg, w, run, w.db.tokens[id].owner);
      NextGrows(cfg, before, a);
      RowIsKept(cfg, w, init, id);
      TokensStayOk(cfg, w, init);
      StepKeepsRow(cfg, before, a, id);
    }
  }

  lemma AcceptedRow(cfg: Config, w: World, raw: Id, id: Id)
    requires TokensInv(cfg, w) && Accepted(cfg, w, raw) && Find(w.db.tokens, raw) == Some(id)
    ensures var t := Step(cfg, w, Move.Refresh(raw)).db;
            && id in w.db.tokens && w.db.tokens[id].hash == Digest(raw)
            && KeptRow(w.db, t, id) && t.tokens[id].revoked.Some? && t.users == w.db.users
  {
    RefreshAccepted(w.db, cfg, raw, w.now);
    assert id in Matching(w.db.tokens, raw);
  }

  /** A token accepted once and presented again at any time before its expiry, whatever
      happened in between short of deleting its owner, is answered with the reuse error and
      leaves its family dead: none of its tokens is accepted ever after. */
  lemma ReplayWithinLifetimeKillsFamily(cfg: Config, w: World, raw: Id, id: Id, run: seq<Move>)
    requires TokensInv(cfg, w) && Accepted(cfg, w, raw) && Find(w.db.tokens, raw) == Some(id)
    requires After(cfg, Step(cfg, w, Move.Refresh(raw)), run).now <= w.db.tokens[id].expires
    requires NeverDeleted(cfg, Step(cfg, w, Move.Refresh(raw)), run, w.db.tokens[id].owner)
    ensures var later := After(cfg, Step(cfg, w, Move.Refresh(raw)), run);
            var (t, r) := Tokens.Refresh(later.db, cfg, raw, later.now);
            && r == Err(Unauthorized("refresh token reuse detected"))
            && Dead(t.tokens, t.next, w.db.tokens[id].family)
  {
    var w' := Step(cfg, w, Move.Refresh(raw));
    AcceptedRow(cfg, w, raw, id);
    StepKeepsTokens(cfg, w, Move.Refresh(raw));
    RowIsKept(cfg, w', run, id);
    TokensStayOk(cfg, w', run);
    var later := After(cfg, w', run);
    Unique(later.db.tokens, raw, id);
  }

  // ---- what one gets for a sign-in lasts ----

  /** A fresh access token is admitted until less than a second before its lifetime ends. */
  lemma FreshTokenIsAdmitted(cfg: Config, w: World, email: string, password: string, fault: nat, run: seq<Move>)
    requires Auth.Login(w.db, cfg, email, password, w.now, fault).1.Ok?
    requires After(cfg, Step(cfg, w, Login(email, password, fault)), run).now + 1_000_000_000
             <= w.now + AccessLifetime(cfg)
    ensures var t := Auth.Login(w.db, cfg, email, password, w.now, fault).1.value.0;
            && Admitted(After(cfg, Step(cfg, w, Login(email, password, fault)), run), t)
            && t.user in w.db.users && t.role == w.db.users[t.user].role
  {
    LoginIssues(w.db, cfg, email, password, w.now, fault);
    IssuedStays(cfg, Step(cfg, w, Login(email, password, fault)), run);
  }

  lemma {:induction false} IssuedStays(cfg: Config, w: World, run: seq<Move>)
    ensures w.issued <= After(cfg, w, run).issued
  {
    if run != [] {
      IssuedStays(cfg, w, run[..|run| - 1]);
      NextGrows(cfg, After(cfg, w, run[..|run| - 1]), run[|run| - 1]);
    }
  }

  /** A fresh refresh token of a user who stays active is accepted for its whole lifetime,
      unless it is used or revoked first. */
  lemma LiveTokenIsAccepted(cfg: Config, w: World, raw: Id, id: Id)
    requires TokensInv(cfg, w) && id in w.db.tokens && w.db.tokens[id].hash == Digest(raw)
    requires w.db.users[w.db.tokens[id].owner].active
    ensures Accepted(cfg, w, raw) <==> w.db.tokens[id].revoked.None? && w.now <= w.db.tokens[id].expires
  {
    Unique(w.db.tokens, raw, id);
    RefreshAccepted(w.db, cfg, raw, w.now);
  }

  /** What a sign-in stores: one live row for the returned token, valid for the refresh
      lifetime. */
  lemma SignInStoresToken(cfg: Config, w: World, email: string, password: string, fault: nat)
    requires TokensInv(cfg, w) && Auth.Login(w.db, cfg, email, password, w.now, fault).1.Ok?
    ensures var t := Step(cfg, w, Login(email, password, fault)).db;
            var (access, raw) := Auth.Login(w.db, cfg, email, password, w.now, fault).1.value;
            && t.tokens.Keys == w.db.tokens.Keys + {w.db.next} && w.db.next !in w.db.tokens
            && t.tokens[w.db.next].owner == access.user && t.tokens[w.db.next].hash == Digest(raw)
            && t.tokens[w.db.next].expires == w.now + RefreshLifetime(cfg)
            && t.tokens[w.db.next].revoked.None? && t.tokens[w.db.next].replacedBy.None?
            && (forall i | i in w.db.tokens :: t.tokens[i] == w.db.tokens[i])
            && (forall i | i in w.db.tokens :: t.tokens[i].family != t.tokens[w.db.next].family)
  {
    LoginIssues(w.db, cfg, email, password, w.now, fault);
  }
}
