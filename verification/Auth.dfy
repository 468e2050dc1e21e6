/** services/auth_service.go, Login: active users with the right password receive a
    token pair; the audit event is best effort. */
module Auth {
  import opened Common
  import opened Tables
  import Audit
  import Tokens

  /** Statements: user query, token insert, and the sign-in event in a transaction of its
      own, audit pair and commit, whose failure is ignored. */
  function Login(s: State, cfg: Tokens.Config, email: string, password: string, now: Time, faultAt: nat)
    : (State, Result<(Tokens.AccessToken, Id)>)
  {
    if faultAt == 1 then (s, Err(Internal))
    else
      match Tokens.FindUser(s.users, email)
      case None => (s, Err(Unauthorized("invalid email or password")))
      case Some(id) =>
        var u := s.users[id];
        if !u.active then (s, Err(Unauthorized("account is deactivated")))
        else if u.password != Digest(password) then (s, Err(Unauthorized("invalid email or password")))
        else if faultAt == 2 then (s, Err(Internal))
        else
          var (s1, raw) := Tokens.Issue(s, cfg, id, now);
          var event := Audit.BuildEvent(s1.next, "user", id, SignIn);
          var s2 := if 3 <= faultAt <= 5 then s1 else Audit.Logged(s1, event).(next := s1.next + 1);
          (s2, Ok((Tokens.Sign(cfg, id, u, now), raw)))
  }
}

module AuthServices {
  import opened Common
  import opened Tables
  import opened TokenServices
  import Audit
  import Auth
  import Tokens

  class AuthService {
    const db: Database
    const tokens: TokenService

    constructor (db: Database, cfg: Tokens.Config)
      ensures this.db == db && tokens.db == db && tokens.cfg == cfg
    {
      this.db := db;
      this.tokens := new TokenService(db, cfg);
    }

    method Login(email: string, password: string, now: Time, faultAt: nat)
      returns (r: Result<(Tokens.AccessToken, Id)>)
      requires tokens.db == db
      modifies db
      ensures (db.Contents(), r)
           == Auth.Login(old(db.Contents()), tokens.cfg, email, password, now, faultAt)
      ensures db.keys == old(db.keys)
    {
      if faultAt == 1 {
        return Err(Internal);
      }
      var found := Tokens.FindUser(db.users, email);
      if found.None? {
        return Err(Unauthorized("invalid email or password"));
      }
      var u := db.users[found.value];
      if !u.active {
        return Err(Unauthorized("account is deactivated"));
      }
      if u.password != Digest(password) {
        return Err(Unauthorized("invalid email or password"));
      }
      var issued := tokens.IssueTokenPair(found.value, u, now, faultAt == 2);
      if issued.Err? {
        return Err(Internal);
      }
      var before := db.Contents();
      var event := FreshId(db);
      var logged := Audit.LogEvent(db, Audit.BuildEvent(event, "user", found.value, SignIn), 3, faultAt);
      if !logged || faultAt == 5 {
        db.Rollback(before);
      }
      return issued;
    }
  }
}
