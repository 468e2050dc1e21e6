/** Roles and activity as they reach access tokens: how stale an admitted token can be,
    and where admin rights come from. */
module BackendRoles {
  import opened Tables
  import opened Tokens
  import opened Backend
  import Users

  // ---- bounded staleness ----

  /** The user exists, is active and has exactly the role the token claims. */
  predicate Backed(s: State, t: AccessToken) {
    t.user in s.users && s.users[t.user].active && s.users[t.user].role == t.role
  }

  /** At some moment of the run the token's claims were true and its lifetime started. */
  ghost predicate SignedAt(cfg: Config, w: World, run: seq<Move>, t: AccessToken, i: nat)
    requires i <= |run|
  {
    var moment := At(cfg, w, run, i);
    Backed(moment.db, t) && t.exp <= moment.now + AccessLifetime(cfg)
  }

  ghost predicate Sourced(cfg: Config, w: World, run: seq<Move>, t: AccessToken) {
    exists i | 0 <= i <= |run| :: SignedAt(cfg, w, run, t, i)
  }

  lemma SignExpiry(cfg: Config, id: Id, u: User, now: Time)
    ensures Sign(cfg, id, u, now).exp <= now + AccessLifetime(cfg)
    ensures now + AccessLifetime(cfg) < Sign(cfg, id, u, now).exp + SECOND
  {
  }

  /** A step signs tokens only for what the tables say at that moment. */
  lemma StepSigns(cfg: Config, w: World, a: Move, t: AccessToken)
    requires t in Step(cfg, w, a).issued && t !in w.issued
    ensures Backed(w.db, t) && t.exp <= w.now + AccessLifetime(cfg)
  {
    match a
    case Login(email, password, fault) =>
      var id := FindUser(w.db.users, email).value;
      SignExpiry(cfg, id, w.db.users[id], w.now);
    case Refresh(raw) =>
      var id := w.db.tokens[Find(w.db.tokens, raw).value].owner;
      SignExpiry(cfg, id, w.db.users[id], w.now);
    case _ =>
  }

  lemma SourcedEarlier(cfg: Config, w: World, run: seq<Move>, a: Move, t: AccessToken)
    requires Sourced(cfg, w, run, t)
    ensures Sourced(cfg, w, run + [a], t)
  {
    var i :| 0 <= i <= |run| && SignedAt(cfg, w, run, t, i);
    assert (run + [a])[..i] == run[..i];
    assert SignedAt(cfg, w, run + [a], t, i);
  }

  lemma {:induction false} IssuedIsSourced(cfg: Config, w: World, run: seq<Move>, t: AccessToken)
    requires w.issued == {} && t in After(cfg, w, run).issued
    ensures Sourced(cfg, w, run, t)
  {
    if run != [] {
      var init, a := run[..|run| - 1], run[|run| - 1];
      assert run == init + [a];
      if t in After(cfg, w, init).issued {
        IssuedIsSourced(cfg, w, init, t);
        SourcedEarlier(cfg, w, init, a, t);
      } else {
        StepSigns(cfg, After(cfg, w, init), a, t);
        assert SignedAt(cfg, w, run, t, |init|);
      }
    }
  }

  /** A request admitted under a token was preceded, by less than the access lifetime, by
      a moment at which the user was active and held the token's role. */
  lemma {:induction false} BoundedStaleness(cfg: Config, w: World, run: seq<Move>, t: AccessToken) returns (i: nat)
    requires w.issued == {} && Admitted(After(cfg, w, run), t)
    ensures i <= |run|
    ensures Backed(At(cfg, w, run, i).db, t)
    ensures After(cfg, w, run).now < At(cfg, w, run, i).now + AccessLifetime(cfg)
  {
    IssuedIsSourced(cfg, w, run, t);
    i :| 0 <= i <= |run| && SignedAt(cfg, w, run, t, i);
  }

  lemma {:induction false} ClockGrows(cfg: Config, w: World, run: seq<Move>)
    ensures w.now <= After(cfg, w, run).now
  {
    if run != [] {
      ClockGrows(cfg, w, run[..|run| - 1]);
      NextGrows(cfg, After(cfg, w, run[..|run| - 1]), run[|run| - 1]);
    }
  }

  lemma ClockGrowsBetween(cfg: Config, w: World, run: seq<Move>, i: nat, j: nat)
    requires i <= j <= |run|
    ensures At(cfg, w, run, i).now <= At(cfg, w, run, j).now
  {
    assert run[..j] == run[..i] + run[i..j];
    AfterSplits(cfg, w, run[..i], run[i..j]);
    ClockGrows(cfg, At(cfg, w, run, i), run[i..j]);
  }

  /** Deactivation, deletion or a change of role takes hold within one access lifetime: a
      token whose claims have been false since action k is no longer admitted once that
      much time has passed. */
  lemma {:induction false} StaleTokenIsRefused(cfg: Config, w: World, run: seq<Move>, k: nat, t: AccessToken)
    requires w.issued == {} && k <= |run|
    requires forall i | k <= i <= |run| :: !Backed(At(cfg, w, run, i).db, t)
    requires At(cfg, w, run, k).now + AccessLifetime(cfg) <= After(cfg, w, run).now
    ensures !Admitted(After(cfg, w, run), t)
  {
    if Admitted(After(cfg, w, run), t) {
      var i := BoundedStaleness(cfg, w, run, t);
      ClockGrowsBetween(cfg, w, run, i, k);
    }
  }

  // ---- where admins come from ----

  /** The user row or an access token of this user carries the admin role. */
  ghost predicate AdminPower(w: World, user: Id) {
    || (user in w.db.users && AdminRole(w.db.users[user].role))
    || exists t :: t in w.issued && t.user == user && AdminRole(t.role)
  }

  /** In world w, an admin's request gives `to` the admin role. */
  predicate Promotes(w: World, a: Move, to: Id) {
    && a.AsAdmin? && AdmittedAsAdmin(w, a.bearer)
    && a.call.UpdateUser? && a.call.id == to && to in w.db.users
    && a.call.changes.role == Users.SetRole(Users.ADMIN)
    && Perform(w.db, a.bearer, a.call, a.fault) != w.db
  }

  /** Promotions at the actions listed, each by the user the previous one made an admin,
      lead from an initial admin to `user`. */
  ghost predicate Rooted(cfg: Config, w: World, run: seq<Move>, promotions: seq<nat>, user: Id)
    decreases |promotions|
  {
    if promotions == [] then AdminPower(w, user)
    else
      var init, i := promotions[..|promotions| - 1], promotions[|promotions| - 1];
      && i < |run| && Promotes(At(cfg, w, run, i), run[i], user)
      && Rooted(cfg, w, run[..i], init, run[i].bearer.user)
  }

  lemma LowerAdmin()
    ensures AdminRole(Users.ADMIN) && !AdminRole(Users.VIEWER) && !AdminRole(Users.ANALYST)
  {
    assert |Lower(Users.VIEWER)| == 6 && |Lower(Users.ANALYST)| == 7;
    assert Lower(Users.ADMIN) == Users.ADMIN;
  }

  /** Self-registration never gives the admin role. */
  lemma RegisterMakesNoAdmin(s: State, name: string, email: string, password: string, role: string, fault: nat,
                             user: Id)
    ensures var t := Users.Register(s, name, email, password, role, fault).0;
            user in t.users && AdminRole(t.users[user].role) ==>
              user in s.users && AdminRole(s.users[user].role)
  {
    LowerAdmin();
  }

  lemma CallUsers(s: State, bearer: AccessToken, call: Call, fault: nat)
    requires !call.UpdateUser?
    ensures var t := Perform(s, bearer, call, fault);
            forall u | u in t.users :: u in s.users && t.users[u] == s.users[u]
  {
  }

  lemma CallMakesAdmin(w: World, a: Move, user: Id)
    requires a.AsAdmin? && AdmittedAsAdmin(w, a.bearer)
    requires var t := Perform(w.db, a.bearer, a.call, a.fault);
             user in t.users && AdminRole(t.users[user].role)
    ensures (user in w.db.users && AdminRole(w.db.users[user].role)) || Promotes(w, a, user)
  {
    if a.call.UpdateUser? {
      LowerAdmin();
    } else {
      CallUsers(w.db, a.bearer, a.call, a.fault);
    }
  }

  /** New admin power comes from a promotion; signing a token only copies it. */
  lemma {:induction false} StepPower(cfg: Config, w: World, a: Move, user: Id)
    requires AdminPower(Step(cfg, w, a), user)
    ensures AdminPower(w, user) || Promotes(w, a, user)
  {
    var w' := Step(cfg, w, a);
    if user in w'.db.users && AdminRole(w'.db.users[user].role) {
      match a
      case Register(name, email, password, role, fault) =>
        RegisterMakesNoAdmin(w.db, name, email, password, role, fault, user);
      case AsAdmin(bearer, call, fault) =>
        if AdmittedAsAdmin(w, bearer) {
          CallMakesAdmin(w, a, user);
        }
      case _ =>
    } else {
      var t :| t in w'.issued && t.user == user && AdminRole(t.role);
      if t !in w.issued {
        StepSigns(cfg, w, a, t);
      }
    }
  }

  lemma RootedEarlier(cfg: Config, w: World, run: seq<Move>, a: Move, promotions: seq<nat>, user: Id)
    requires Rooted(cfg, w, run, promotions, user)
    ensures Rooted(cfg, w, run + [a], promotions, user)
  {
    if promotions != [] {
      var i := promotions[|promotions| - 1];
      assert (run + [a])[..i] == run[..i];
    }
  }

  /** Role provenance: every user and every access token with admin rights, in every
      reachable world, traces back through promotions to an initial admin. */
  lemma {:induction false} AdminsAreRooted(cfg: Config, w: World, run: seq<Move>, user: Id)
    returns (promotions: seq<nat>)
    requires AdminPower(After(cfg, w, run), user)
    ensures Rooted(cfg, w, run, promotions, user)
    decreases |run|
  {
    if run == [] {
      return [];
    }
    var init, a := run[..|run| - 1], run[|run| - 1];
    var before := After(cfg, w, init);
    assert run == init + [a];
    StepPower(cfg, before, a, user);
    if AdminPower(before, user) {
      promotions := AdminsAreRooted(cfg, w, init, user);
      RootedEarlier(cfg, w, init, a, promotions, user);
    } else {
      assert AdminPower(before, a.bearer.user);
      var earlier := AdminsAreRooted(cfg, w, init, a.bearer.user);
      promotions := earlier + [|init|];
      assert promotions[..|promotions| - 1] == earlier;
    }
  }

  lemma {:induction false} RootIsAdmin(cfg: Config, w: World, run: seq<Move>, promotions: seq<nat>, user: Id)
    requires Rooted(cfg, w, run, promotions, user)
    ensures exists root :: AdminPower(w, root)
    decreases |promotions|
  {
    if promotions != [] {
      var i := promotions[|promotions| - 1];
      RootIsAdmin(cfg, w, run[..i], promotions[..|promotions| - 1], run[i].bearer.user);
    } else {
      assert AdminPower(w, user);
    }
  }

  lemma AdminNeedsRoot(cfg: Config, w: World, run: seq<Move>, user: Id)
    requires AdminPower(After(cfg, w, run), user)
    ensures exists root :: AdminPower(w, root)
  {
    var promotions := AdminsAreRooted(cfg, w, run, user);
    RootIsAdmin(cfg, w, run, promotions, user);
  }

  /** Without an admin user or an admin token at the start no run produces one. */
  lemma {:induction false} NoAdminFromNothing(cfg: Config, w: World, run: seq<Move>, user: Id)
    requires forall root :: !AdminPower(w, root)
    ensures !AdminPower(After(cfg, w, run), user)
  {
    if AdminPower(After(cfg, w, run), user) {
      AdminNeedsRoot(cfg, w, run, user);
    }
  }
}
