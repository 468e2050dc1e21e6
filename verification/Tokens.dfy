/** services/token_service.go and utils/jwt.go: access tokens, refresh-token families,
    rotation, revocation and cleanup, as functions of the tables. */
module Tokens {
  import opened Common
  import opened Tables

  const SECOND: nat := 1_000_000_000

  datatype Config = Config(accessMinutes: int, refreshDays: int)

  /** Lifetimes, with the defaults for missing settings: 15 minutes and 7 days. */
  function AccessLifetime(cfg: Config): nat {
    (if cfg.accessMinutes <= 0 then 15 else cfg.accessMinutes) * 60 * SECOND
  }

  function RefreshLifetime(cfg: Config): nat {
    (if cfg.refreshDays <= 0 then 7 else cfg.refreshDays) * 24 * 3600 * SECOND
  }

  /** A signed JWT; nobody can make one up, so the issued values are all there are. */
  datatype AccessToken = AccessToken(user: Id, role: string, exp: Time)

  /** GenerateToken: the expiry claim keeps whole seconds only. */
  function Sign(cfg: Config, id: Id, user: User, now: Time): AccessToken {
    AccessToken(id, user.role, (now + AccessLifetime(cfg)) / SECOND * SECOND)
  }

  /** ValidateToken: valid strictly before the expiry. */
  predicate Unexpired(t: AccessToken, now: Time) {
    now < t.exp
  }

  // ---- issuing ----

  /** IssueTokenPair: a row under a fresh family, ids taken from the supply in order. */
  function Issue(s: State, cfg: Config, user: Id, now: Time): (State, Id) {
    var row := RefreshToken(user, Digest(s.next + 1), s.next + 2, now + RefreshLifetime(cfg), None, None);
    (s.(tokens := s.tokens[s.next := row], next := s.next + 3), s.next + 1)
  }

  // ---- looking up ----

  function Matching(tokens: map<Id, RefreshToken>, raw: Id): set<Id> {
    set id | id in tokens && tokens[id].hash == Digest(raw)
  }

  /** First by token_hash: the smallest primary key among the matches. */
  function Find(tokens: map<Id, RefreshToken>, raw: Id): Option<Id> {
    var ids := Matching(tokens, raw);
    if ids == {} then None else Some(Least(ids))
  }

  // ---- revoking ----

  function Revoked(t: RefreshToken, now: Time): RefreshToken {
    if t.revoked.None? then t.(revoked := Some(now)) else t
  }

  function RevokeFamily(tokens: map<Id, RefreshToken>, family: Id, now: Time): map<Id, RefreshToken> {
    map id | id in tokens :: if tokens[id].family == family then Revoked(tokens[id], now) else tokens[id]
  }

  function RevokeUser(tokens: map<Id, RefreshToken>, user: Id, now: Time): map<Id, RefreshToken> {
    map id | id in tokens :: if tokens[id].owner == user then Revoked(tokens[id], now) else tokens[id]
  }

  /** cleanupExpiredRefreshTokens: rows both expired and revoked are deleted. */
  predicate Collectable(t: RefreshToken, now: Time) {
    t.expires < now && t.revoked.Some?
  }

  function Collect(tokens: map<Id, RefreshToken>, now: Time): map<Id, RefreshToken> {
    map id | id in tokens && !Collectable(tokens[id], now) :: tokens[id]
  }

  // ---- rotating ----

  /** The new row joins the old family; the old row is revoked and linked to it. */
  function Link(tokens: map<Id, RefreshToken>, prev: Id, succ: Id, now: Time): map<Id, RefreshToken>
    requires prev in tokens && succ in tokens
  {
    var joined := tokens[succ := tokens[succ].(family := tokens[prev].family)];
    joined[prev := joined[prev].(revoked := Some(now), replacedBy := Some(succ))]
  }

  const REUSE := "refresh token reuse detected"

  /** RefreshTokens as one atomic call; writes succeed. */
  function Refresh(s: State, cfg: Config, raw: Id, now: Time): (State, Result<(AccessToken, Id)>) {
    match Find(s.tokens, raw)
    case None => (s, Err(Unauthorized("invalid refresh token")))
    case Some(id) =>
      var t := s.tokens[id];
      if t.revoked.Some? then
        (s.(tokens := RevokeFamily(s.tokens, t.family, now)), Err(Unauthorized(REUSE)))
      else if now > t.expires then (s, Err(Unauthorized("refresh token has expired")))
      else if t.owner !in s.users then (s, Err(Internal))
      else if !s.users[t.owner].active then (s, Err(Unauthorized("account is deactivated")))
      else
        var (s1, raw1) := Issue(s, cfg, t.owner, now);
        match Find(s1.tokens, raw1)
        case None => (s1, Err(Internal))
        case Some(succ) =>
          (s1.(tokens := Link(s1.tokens, id, succ, now)), Ok((Sign(cfg, t.owner, s.users[t.owner], now), raw1)))
  }

  // ---- signing in ----

  function FindUser(users: map<Id, User>, email: string): Option<Id> {
    var ids := set id | id in users && users[id].email == email;
    if ids == {} then None else Some(Least(ids))
  }
}

/** The token service as it runs, row by row. */
module TokenServices {
  import opened Common
  import opened Tables
  import Tokens

  class TokenService {
    const db: Database
    const cfg: Tokens.Config

    constructor (db: Database, cfg: Tokens.Config)
      ensures this.db == db && this.cfg == cfg
    {
      this.db, this.cfg := db, cfg;
    }

    /** `fails` is a refused insert: nothing is stored and no token handed out. */
    method IssueTokenPair(id: Id, user: User, now: Time, fails: bool) returns (r: Result<(Tokens.AccessToken, Id)>)
      modifies db`tokens, db`next
      ensures fails ==> r == Err(Internal) && db.Contents() == old(db.Contents())
      ensures !fails ==>
                && r.Ok? && r.value.0 == Tokens.Sign(cfg, id, user, now)
                && (db.Contents(), r.value.1) == Tokens.Issue(old(db.Contents()), cfg, id, now)
    {
      if fails {
        return Err(Internal);
      }
      var access := Tokens.Sign(cfg, id, user, now);
      var row := FreshId(db);
      var raw := FreshId(db);
      var family := FreshId(db);
      db.tokens := db.tokens[row :=
        RefreshToken(id, Digest(raw), family, now + Tokens.RefreshLifetime(cfg), None, None)];
      return Ok((access, raw));
    }

    method RefreshTokens(raw: Id, now: Time) returns (r: Result<(Tokens.AccessToken, Id)>)
      modifies db`tokens, db`next
      ensures (db.Contents(), r) == Tokens.Refresh(old(db.Contents()), cfg, raw, now)
    {
      var found := Tokens.Find(db.tokens, raw);
      if found.None? {
        return Err(Unauthorized("invalid refresh token"));
      }
      var existing := db.tokens[found.value];
      if existing.revoked.Some? {
        var _ := RevokeTokenFamily(existing.family, now, false);
        return Err(Unauthorized(Tokens.REUSE));
      }
      if now > existing.expires {
        return Err(Unauthorized("refresh token has expired"));
      }
      if existing.owner !in db.users {
        return Err(Internal);
      }
      var user := db.users[existing.owner];
      if !user.active {
        return Err(Unauthorized("account is deactivated"));
      }
      var issued := IssueTokenPair(existing.owner, user, now, false);
      var (access, raw1) := issued.value;
      var succ := Tokens.Find(db.tokens, raw1);
      if succ.None? {
        return Err(Internal);
      }
      db.tokens := db.tokens[succ.value := db.tokens[succ.value].(family := db.tokens[found.value].family)];
      db.tokens := db.tokens[found.value :=
        db.tokens[found.value].(revoked := Some(now), replacedBy := Some(succ.value))];
      return Ok((access, raw1));
    }

    /** One bulk update: of the user's rows the live ones are stamped, no other field and
        no other row changes. A failure is reported and changes nothing. */
    method RevokeAllUserTokens(user: Id, now: Time, fails: bool) returns (ok: bool)
      modifies db`tokens
      ensures ok <==> !fails
      ensures fails ==> db.tokens == old(db.tokens)
      ensures ok ==> db.tokens == Tokens.RevokeUser(old(db.tokens), user, now)
      ensures ok ==> db.tokens.Keys == old(db.tokens.Keys) && forall id | id in db.tokens ::
                var t := old(db.tokens)[id];
                if t.owner == user && t.revoked.None? then db.tokens[id] == t.(revoked := Some(now))
                else db.tokens[id] == t
    {
      if !fails {
        db.tokens := map id | id in db.tokens ::
          if db.tokens[id].owner == user && db.tokens[id].revoked.None? then db.tokens[id].(revoked := Some(now))
          else db.tokens[id];
      }
      return !fails;
    }

    /** The same for the rows of one family. */
    method RevokeTokenFamily(family: Id, now: Time, fails: bool) returns (ok: bool)
      modifies db`tokens
      ensures ok <==> !fails
      ensures fails ==> db.tokens == old(db.tokens)
      ensures ok ==> db.tokens == Tokens.RevokeFamily(old(db.tokens), family, now)
      ensures ok ==> db.tokens.Keys == old(db.tokens.Keys) && forall id | id in db.tokens ::
                var t := old(db.tokens)[id];
                if t.family == family && t.revoked.None? then db.tokens[id] == t.(revoked := Some(now))
                else db.tokens[id] == t
    {
      if !fails {
        db.tokens := map id | id in db.tokens ::
          if db.tokens[id].family == family && db.tokens[id].revoked.None? then db.tokens[id].(revoked := Some(now))
          else db.tokens[id];
      }
      return !fails;
    }
  }
}
