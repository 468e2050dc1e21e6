/** The shape of refresh-token families and how every table operation keeps it. */
module TokenFacts {
  import opened Common
  import opened Tables
  import opened Tokens

  /** i and j of one family, i issued first: i was revoked when it was replaced, its
      successor was issued after it and not after j and is still stored, both have one
      owner, and i does not expire later. */
  ghost predicate Before(tokens: map<Id, RefreshToken>, i: Id, j: Id)
    requires i in tokens && j in tokens
  {
    var t := tokens[i];
    && t.revoked.Some? && t.replacedBy.Some? && i < t.replacedBy.value <= j
    && t.owner == tokens[j].owner && t.expires <= tokens[j].expires
  }

  /** A link leads forward to a stored row of the same family. */
  ghost predicate Linked(tokens: map<Id, RefreshToken>, i: Id)
    requires i in tokens
  {
    var t := tokens[i];
    t.replacedBy.Some? ==>
      && t.revoked.Some? && i < t.replacedBy.value && t.replacedBy.value in tokens
      && tokens[t.replacedBy.value].family == t.family
  }

  ghost predicate Chained(tokens: map<Id, RefreshToken>) {
    && (forall i, j {:trigger Before(tokens, i, j)}
          | i in tokens && j in tokens && i < j && tokens[i].family == tokens[j].family :: Before(tokens, i, j))
    && (forall i {:trigger Linked(tokens, i)} | i in tokens :: Linked(tokens, i))
  }

  /** Ids, hashes and families come from the supply; hashes are unique; expiries lie
      within one lifetime of the clock. */
  ghost predicate Supplied(tokens: map<Id, RefreshToken>, next: Id, horizon: Time) {
    && (forall i | i in tokens ::
          i < next && tokens[i].hash.preimage < next && tokens[i].family < next && tokens[i].expires <= horizon)
    && (forall i, j | i in tokens && j in tokens && i != j :: tokens[i].hash != tokens[j].hash)
  }

  ghost predicate TokensOk(tokens: map<Id, RefreshToken>, next: Id, horizon: Time) {
    Chained(tokens) && Supplied(tokens, next, horizon)
  }

  // ---- what the shape means ----

  function Family(tokens: map<Id, RefreshToken>, family: Id): set<Id> {
    set i | i in tokens && tokens[i].family == family
  }

  /** j replaced i. */
  ghost predicate Replaces(tokens: map<Id, RefreshToken>, i: Id, j: Id) {
    && i in tokens && j in tokens
    && tokens[i].revoked.Some? && tokens[i].replacedBy == Some(j)
    && tokens[i].owner == tokens[j].owner && tokens[i].expires <= tokens[j].expires
  }

  lemma {:induction false} SuccessorIsNext(tokens: map<Id, RefreshToken>, chain: seq<Id>, family: Id, k: nat)
    requires Chained(tokens) && chain == Sorted(Family(tokens, family)) && k + 1 < |chain|
    ensures Replaces(tokens, chain[k], chain[k + 1])
  {
    var i, j := chain[k], chain[k + 1];
    assert i in chain && j in chain;
    assert Before(tokens, i, j) && Linked(tokens, i);
    var r := tokens[i].replacedBy.value;
    assert r in chain;
    var m :| 0 <= m < |chain| && chain[m] == r;
    AscendingIndex(chain, k, m);
    AscendingIndex(chain, k + 1, m);
  }

  lemma LastIsUnreplaced(tokens: map<Id, RefreshToken>, chain: seq<Id>, family: Id)
    requires Chained(tokens) && chain == Sorted(Family(tokens, family)) && chain != []
    ensures var last := chain[|chain| - 1]; last in tokens && tokens[last].replacedBy == None
  {
    var last := chain[|chain| - 1];
    assert last in chain && Linked(tokens, last);
    assert tokens[last].replacedBy.Some? ==> tokens[last].replacedBy.value in chain;
    LastIsGreatest(chain);
  }

  /** The stored tokens of a family are one acyclic chain of links with one owner: each
      row but the last is revoked and replaced by the next, and the last, the only one
      that may be live, is not replaced. */
  lemma FamilyIsOneChain(tokens: map<Id, RefreshToken>, family: Id) returns (chain: seq<Id>)
    requires Chained(tokens)
    ensures forall i :: i in chain <==> i in tokens && tokens[i].family == family
    ensures Ascending(chain)
    ensures forall k | 0 <= k < |chain| - 1 :: Replaces(tokens, chain[k], chain[k + 1])
    ensures chain != [] ==> tokens[chain[|chain| - 1]].replacedBy == None
  {
    chain := Sorted(Family(tokens, family));
    forall k | 0 <= k < |chain| - 1 ensures Replaces(tokens, chain[k], chain[k + 1]) {
      SuccessorIsNext(tokens, chain, family, k);
    }
    if chain != [] {
      LastIsUnreplaced(tokens, chain, family);
    }
  }

  // ---- every table operation keeps it ----

  /** Rows may be dropped when no kept row loses its successor. */
  lemma DropKeeps(tokens: map<Id, RefreshToken>, kept: map<Id, RefreshToken>, next: Id, horizon: Time)
    requires TokensOk(tokens, next, horizon)
    requires forall i | i in kept :: i in tokens && kept[i] == tokens[i]
    requires forall i, j | i in kept && j in tokens && i < j && tokens[i].family == tokens[j].family :: j in kept
    ensures TokensOk(kept, next, horizon)
  {
    forall i, j | i in kept && j in kept && i < j && kept[i].family == kept[j].family
      ensures Before(kept, i, j)
    {
      assert Before(tokens, i, j);
    }
    forall i | i in kept ensures Linked(kept, i) {
      assert Linked(tokens, i);
    }
  }

  /** Expiry never falls along a chain, so the cleanup removes a prefix of every family:
      with a row go all rows issued before it. */
  lemma CollectRemovesPrefix(tokens: map<Id, RefreshToken>, now: Time, i: Id, j: Id)
    requires Chained(tokens) && i in tokens && j in tokens && i < j && tokens[i].family == tokens[j].family
    requires j !in Collect(tokens, now)
    ensures i !in Collect(tokens, now)
  {
    assert Before(tokens, i, j);
  }

  lemma {:induction false} CollectKeeps(tokens: map<Id, RefreshToken>, now: Time, next: Id, horizon: Time)
    requires TokensOk(tokens, next, horizon)
    ensures TokensOk(Collect(tokens, now), next, horizon)
  {
    forall i, j | i in Collect(tokens, now) && j in tokens && i < j && tokens[i].family == tokens[j].family
      ensures j in Collect(tokens, now)
    {
      if j !in Collect(tokens, now) {
        CollectRemovesPrefix(tokens, now, i, j);
      }
    }
    DropKeeps(tokens, Collect(tokens, now), next, horizon);
  }

  lemma {:induction false} OwnerDropKeeps(tokens: map<Id, RefreshToken>, user: Id, next: Id, horizon: Time)
    requires TokensOk(tokens, next, horizon)
    ensures TokensOk(map i | i in tokens && tokens[i].owner != user :: tokens[i], next, horizon)
  {
    var kept := map i | i in tokens && tokens[i].owner != user :: tokens[i];
    forall i, j | i in kept && j in tokens && i < j && tokens[i].family == tokens[j].family ensures j in kept {
      assert Before(tokens, i, j);
    }
    DropKeeps(tokens, kept, next, horizon);
  }

  /** Revoking any rows changes no link. */
  lemma {:induction false} RevokeKeeps(tokens: map<Id, RefreshToken>, after: map<Id, RefreshToken>, now: Time,
                                       next: Id, horizon: Time)
    requires TokensOk(tokens, next, horizon)
    requires after.Keys == tokens.Keys
    requires forall i | i in tokens :: after[i] == tokens[i] || after[i] == Revoked(tokens[i], now)
    ensures TokensOk(after, next, horizon)
  {
    forall i, j | i in after && j in after && i < j && after[i].family == after[j].family
      ensures Before(after, i, j)
    {
      assert Before(tokens, i, j);
    }
    forall i | i in after ensures Linked(after, i) {
      assert Linked(tokens, i);
    }
  }

  lemma {:induction false} IssueKeeps(s: State, cfg: Config, user: Id, now: Time)
    requires TokensOk(s.tokens, s.next, now + RefreshLifetime(cfg))
    ensures var t := Issue(s, cfg, user, now).0;
            TokensOk(t.tokens, t.next, now + RefreshLifetime(cfg))
  {
    var t := Issue(s, cfg, user, now).0;
    forall i, j | i in t.tokens && j in t.tokens && i < j && t.tokens[i].family == t.tokens[j].family
      ensures Before(t.tokens, i, j)
    {
      assert Before(s.tokens, i, j);
    }
    forall i | i in t.tokens ensures Linked(t.tokens, i) {
      if i != s.next {
        assert Linked(s.tokens, i);
      }
    }
  }

  /** The raw token just issued is found again, under its fresh id. */
  lemma IssuedIsFound(s: State, cfg: Config, user: Id, now: Time)
    requires Supplied(s.tokens, s.next, now + RefreshLifetime(cfg))
    ensures var (t, raw) := Issue(s, cfg, user, now);
            Find(t.tokens, raw) == Some(s.next)
  {
    var (t, raw) := Issue(s, cfg, user, now);
    assert Matching(t.tokens, raw) == {s.next};
  }

  lemma Unique(tokens: map<Id, RefreshToken>, raw: Id, id: Id)
    requires forall i, j | i in tokens && j in tokens && i != j :: tokens[i].hash != tokens[j].hash
    requires id in tokens && tokens[id].hash == Digest(raw)
    ensures Find(tokens, raw) == Some(id)
  {
    assert id in Matching(tokens, raw);
    assert Matching(tokens, raw) == {id};
  }

  /** A live row is the last of its family. */
  lemma LiveIsLast(tokens: map<Id, RefreshToken>, id: Id, j: Id)
    requires Chained(tokens) && id in tokens && tokens[id].revoked.None?
    requires j in tokens && tokens[j].family == tokens[id].family
    ensures j <= id
  {
    assert id < j ==> Before(tokens, id, j);
  }

  /** Exactly when a refresh is accepted. */
  predicate Acceptable(s: State, raw: Id, now: Time) {
    match Find(s.tokens, raw)
    case None => false
    case Some(id) =>
      var t := s.tokens[id];
      t.revoked.None? && now <= t.expires && t.owner in s.users && s.users[t.owner].active
  }

  /** An accepted refresh: the presented row is replaced by one new row of its family. */
  lemma RefreshAccepted(s: State, cfg: Config, raw: Id, now: Time)
    requires TokensOk(s.tokens, s.next, now + RefreshLifetime(cfg))
    ensures Refresh(s, cfg, raw, now).1.Ok? <==> Acceptable(s, raw, now)
    ensures Acceptable(s, raw, now) ==>
              var (t, r) := Refresh(s, cfg, raw, now);
              var id := Find(s.tokens, raw).value;
              var row := s.tokens[id];
              && t == Issue(s, cfg, row.owner, now).0.(tokens := t.tokens)
              && t.tokens
                 == s.tokens[id := row.(revoked := Some(now), replacedBy := Some(s.next))]
                            [s.next := RefreshToken(row.owner, Digest(s.next + 1), row.family,
                                                    now + RefreshLifetime(cfg), None, None)]
              && r.value == (Sign(cfg, row.owner, s.users[row.owner], now), s.next + 1)
  {
    if Acceptable(s, raw, now) {
      var id := Find(s.tokens, raw).value;
      IssuedIsFound(s, cfg, s.tokens[id].owner, now);
    }
  }

  lemma {:induction false} RotationKeeps(s: State, cfg: Config, raw: Id, now: Time)
    requires TokensOk(s.tokens, s.next, now + RefreshLifetime(cfg)) && Acceptable(s, raw, now)
    ensures var t := Refresh(s, cfg, raw, now).0;
            TokensOk(t.tokens, t.next, now + RefreshLifetime(cfg))
  {
    RefreshAccepted(s, cfg, raw, now);
    var t := Refresh(s, cfg, raw, now).0;
    var id := Find(s.tokens, raw).value;
    forall i, j | i in t.tokens && j in t.tokens && i < j && t.tokens[i].family == t.tokens[j].family
      ensures Before(t.tokens, i, j)
    {
      if j != s.next {
        assert Before(s.tokens, i, j);
      } else if i != id {
        LiveIsLast(s.tokens, id, i);
        assert Before(s.tokens, i, id);
      }
    }
    forall i | i in t.tokens ensures Linked(t.tokens, i) {
      if i != s.next {
        assert Linked(s.tokens, i);
      }
    }
  }

  lemma {:induction false} RefreshKeeps(s: State, cfg: Config, raw: Id, now: Time)
    requires TokensOk(s.tokens, s.next, now + RefreshLifetime(cfg))
    ensures var t := Refresh(s, cfg, raw, now).0;
            TokensOk(t.tokens, t.next, now + RefreshLifetime(cfg))
  {
    RefreshAccepted(s, cfg, raw, now);
    var found := Find(s.tokens, raw);
    if Acceptable(s, raw, now) {
      RotationKeeps(s, cfg, raw, now);
    } else if found.Some? && s.tokens[found.value].revoked.Some? {
      RevokeKeeps(s.tokens, RevokeFamily(s.tokens, s.tokens[found.value].family, now), now, s.next,
                  now + RefreshLifetime(cfg));
    }
  }

  // ---- live tokens ----

  function Live(tokens: map<Id, RefreshToken>, user: Id): set<Id> {
    set i | i in tokens && tokens[i].owner == user && tokens[i].revoked.None?
  }

  lemma ReplaceLive(tokens: map<Id, RefreshToken>, id: Id, spent: RefreshToken, succ: Id, row: RefreshToken, user: Id)
    requires id in tokens && tokens[id].revoked.None? && succ !in tokens
    requires spent.revoked.Some? && row.revoked.None? && row.owner == tokens[id].owner
    ensures |Live(tokens[id := spent][succ := row], user)| == |Live(tokens, user)|
  {
    var after := tokens[id := spent][succ := row];
    if row.owner == user {
      assert Live(after, user) == Live(tokens, user) - {id} + {succ};
    } else {
      assert Live(after, user) == Live(tokens, user);
    }
  }

  /** A successful refresh leaves every user's number of live tokens unchanged. */
  lemma RefreshConserves(s: State, cfg: Config, raw: Id, now: Time, user: Id)
    requires TokensOk(s.tokens, s.next, now + RefreshLifetime(cfg)) && Acceptable(s, raw, now)
    ensures |Live(Refresh(s, cfg, raw, now).0.tokens, user)| == |Live(s.tokens, user)|
  {
    RefreshAccepted(s, cfg, raw, now);
    var id := Find(s.tokens, raw).value;
    var row := s.tokens[id];
    ReplaceLive(s.tokens, id, row.(revoked := Some(now), replacedBy := Some(s.next)), s.next,
                RefreshToken(row.owner, Digest(s.next + 1), row.family, now + RefreshLifetime(cfg), None, None),
                user);
  }

  lemma FewerLive(before: map<Id, RefreshToken>, after: map<Id, RefreshToken>, user: Id)
    requires Live(after, user) <= Live(before, user)
    ensures |Live(after, user)| <= |Live(before, user)|
  {
    var a, b := Live(after, user), Live(before, user);
    assert b == a + (b - a);
  }

  lemma AddLive(tokens: map<Id, RefreshToken>, id: Id, row: RefreshToken, user: Id)
    requires id !in tokens && row.revoked.None?
    ensures |Live(tokens[id := row], user)| == |Live(tokens, user)| + if row.owner == user then 1 else 0
  {
    if row.owner == user {
      assert Live(tokens[id := row], user) == Live(tokens, user) + {id};
    } else {
      assert Live(tokens[id := row], user) == Live(tokens, user);
    }
  }

  lemma IssueAddsOneLive(s: State, cfg: Config, owner: Id, now: Time, user: Id)
    requires forall i | i in s.tokens :: i < s.next
    ensures |Live(Issue(s, cfg, owner, now).0.tokens, user)|
         == |Live(s.tokens, user)| + if owner == user then 1 else 0
  {
    AddLive(s.tokens, s.next, Issue(s, cfg, owner, now).0.tokens[s.next], user);
  }

  // ---- what the cleanup takes ----

  /** Exactly the rows that are past their expiry and revoked are deleted. */
  lemma CollectIsExact(tokens: map<Id, RefreshToken>, now: Time, id: Id)
    ensures id in Collect(tokens, now)
            <==> id in tokens && !(tokens[id].expires < now && tokens[id].revoked.Some?)
    ensures id in Collect(tokens, now) ==> Collect(tokens, now)[id] == tokens[id]
  {
  }

  /** A configured lifetime of n minutes or days, or 15 minutes and 7 days. */
  lemma LifetimesAre(cfg: Config)
    ensures AccessLifetime(cfg) == (if cfg.accessMinutes > 0 then cfg.accessMinutes * 60_000_000_000
                                    else 900_000_000_000)
    ensures RefreshLifetime(cfg) == (if cfg.refreshDays > 0 then cfg.refreshDays * 86_400_000_000_000
                                     else 604_800_000_000_000)
  {
  }


  /** Only rows that no refresh would accept are deleted: acceptance of every raw token,
      now or later, and everybody's live tokens stay as they were. */
  lemma CleanupIsHarmless(s: State, raw: Id, now: Time, later: Time, user: Id, horizon: Time)
    requires Supplied(s.tokens, s.next, horizon)
    ensures var t := s.(tokens := Collect(s.tokens, now));
            && (Acceptable(t, raw, later) <==> Acceptable(s, raw, later))
            && Live(t.tokens, user) == Live(s.tokens, user)
  {
    var kept := Collect(s.tokens, now);
    if id :| id in s.tokens && s.tokens[id].hash == Digest(raw) {
      Unique(s.tokens, raw, id);
      if id in kept {
        Unique(kept, raw, id);
      } else {
        assert Matching(kept, raw) == {};
      }
    } else {
      assert Matching(kept, raw) == {} && Matching(s.tokens, raw) == {};
    }
  }

  // ---- spent tokens and dead families ----

  /** No live row answers to this raw token, and none ever will. */
  ghost predicate Spent(tokens: map<Id, RefreshToken>, next: Id, raw: Id) {
    raw < next && forall i | i in tokens && tokens[i].hash == Digest(raw) :: tokens[i].revoked.Some?
  }

  /** Every stored row of the family is revoked, and the family id is not fresh. */
  ghost predicate Dead(tokens: map<Id, RefreshToken>, next: Id, family: Id) {
    family < next && forall i | i in tokens && tokens[i].family == family :: tokens[i].revoked.Some?
  }
}
